/** The dedup check of a keyed send: the index first, the log scan as backstop
    (internal/bus/index.go, internal/bus/mail.go). */
module Dedup {
  import opened Text
  import opened Codec
  import opened Sorting
  import opened Storage
  import opened StorageLaws
  import opened Protocol
  import opened Invariant
  import opened Preservation
  import opened KeyedSends

  datatype DedupResult = Hit(res: SendResult) | Miss | Failed(error: ParseError)

  function AgentOf(d: Delivery): string {
    d.agent
  }

  ghost predicate ByAgent(ds: seq<Delivery>) {
    forall i, j :: 0 <= i < j < |ds| ==> StrLe(ds[i].agent, ds[j].agent)
  }

  function NameOf(d: Delivery): Name {
    (d.agent, d.seqNo)
  }

  /** The answer read from the index: every row with the key once, sorted, under the id of one. */
  ghost predicate IndexAnswer(rows: Table, key: string, res: SendResult) {
    && (exists n :: RowHasKey(rows, n, key) && rows[n].id == res.id)
    && (forall n :: RowHasKey(rows, n, key) <==> Delivery(n.0, n.1) in res.delivered)
    && (forall i, j :: 0 <= i < j < |res.delivered| ==> res.delivered[i] != res.delivered[j])
    && ByAgent(res.delivered)
  }

  function DeliveryOf(h: (AgentId, Record)): Delivery {
    Delivery(h.0, h.1.seqNo)
  }

  function DeliveriesOfHits(hits: seq<(AgentId, Record)>): seq<Delivery> {
    seq(|hits|, i requires 0 <= i < |hits| => DeliveryOf(hits[i]))
  }

  /** The answer read from the logs, visited in some order: every bearing record, sorted by
      mailbox, under the id of the first one met. */
  ghost predicate ScanAnswer(order: seq<AgentId>, logs: Files, key: string, res: SendResult) {
    var hits := Hits(order, logs, key);
    && hits != []
    && res.id == hits[0].1.id
    && multiset(res.delivered) == multiset(DeliveriesOfHits(hits))
    && ByAgent(res.delivered)
  }

  // ---- The index query ----

  method QueryIndex(rows: Table, key: string) returns (result: Option<SendResult>)
    ensures result.None? <==> !RowKnows(rows, key)
    ensures result.Some? ==> IndexAnswer(rows, key, result.value)
  {
    var left := set n | n in rows && rows[n].dedup == Some(key);
    ghost var all := left;
    assert forall n :: n in all <==> RowHasKey(rows, n, key);
    var id := 0;
    var delivered: seq<Delivery> := [];
    while left != {}
      invariant left <= all
      invariant forall n :: n in all <==> n in left || Delivery(n.0, n.1) in delivered
      invariant forall i :: 0 <= i < |delivered| ==> NameOf(delivered[i]) in all && NameOf(delivered[i]) !in left
      invariant forall i, j :: 0 <= i < j < |delivered| ==> delivered[i] != delivered[j]
      invariant delivered != [] ==> exists n :: n in all && rows[n].id == id
      decreases left
    {
      var n :| n in left;
      if delivered == [] {
        id := rows[n].id;
      }
      assert Delivery(n.0, n.1) !in delivered by {
        assert forall i :: 0 <= i < |delivered| ==> NameOf(delivered[i]) != n;
      }
      delivered := delivered + [Delivery(n.0, n.1)];
      left := left - {n};
    }
    if delivered == [] {
      return None;
    }
    var sorted := SortBy(delivered, AgentOf);
    SortedIsAnswer(rows, key, id, delivered, sorted);
    result := Some(SendResult(id, sorted));
  }

  lemma SortedIsAnswer(rows: Table, key: string, id: int, delivered: seq<Delivery>, sorted: seq<Delivery>)
    requires exists n :: RowHasKey(rows, n, key) && rows[n].id == id
    requires forall n :: RowHasKey(rows, n, key) <==> Delivery(n.0, n.1) in delivered
    requires forall i, j :: 0 <= i < j < |delivered| ==> delivered[i] != delivered[j]
    requires SortedBy(sorted, AgentOf) && multiset(sorted) == multiset(delivered)
    ensures IndexAnswer(rows, key, SendResult(id, sorted))
  {
    hide StrLe;
    SamePermutation(delivered, sorted);
    DistinctPermutation(delivered, sorted);
  }

  // ---- The log scan ----

  /** The collecting loop over one mailbox's records. */
  method CollectHits(a: AgentId, rs: seq<Record>, key: string) returns (hits: seq<(AgentId, Record)>)
    ensures hits == HitsIn(a, rs, key)
  {
    hits := [];
    for i := 0 to |rs|
      invariant hits == HitsIn(a, rs[..i], key)
    {
      assert rs[..i + 1][..i] == rs[..i];
      if rs[i].dedup == Some(key) {
        hits := hits + [(a, rs[i])];
      }
    }
    assert rs[..|rs|] == rs;
  }

  /** Parses every mailbox log; any malformed log is an error. */
  method ReadAllLogs(logs: Files) returns (error: Option<ParseError>, records: map<AgentId, seq<Record>>)
    ensures error.None? ==> records.Keys == logs.Keys
    ensures error.None? ==> forall a :: a in logs ==> Readable(logs[a]) && records[a] == RecordsIn(logs[a])
    ensures error.Some? ==> exists a :: a in logs && !Readable(logs[a])
  {
    hide ParseAll;
    records := map[];
    var left := logs.Keys;
    while left != {}
      invariant left <= logs.Keys && records.Keys == logs.Keys - left
      invariant forall a :: a in records ==> Readable(logs[a]) && records[a] == RecordsIn(logs[a])
      decreases left
    {
      var a :| a in left;
      var r := ParseRecords(logs[a]);
      if r.Fails? {
        return Some(r.error), records;
      }
      records := records[a := r.records];
      left := left - {a};
    }
    error := None;
  }

  /** findDedupByLogScanLocked: the mailboxes are visited in map order, that is, in any order. */
  method ScanLogs(logs: Files, key: string) returns (result: DedupResult, ghost order: seq<AgentId>)
    ensures result.Failed? <==> exists a :: a in logs && !Readable(logs[a])
    ensures !result.Failed? ==> Lists(order, logs)
    ensures result.Hit? ==> ScanAnswer(order, logs, key, result.res)
    ensures result.Miss? ==> !LogKnows(logs, key)
  {
    hide ParseAll;
    order := [];
    var error, records := ReadAllLogs(logs);
    if error.Some? {
      return Failed(error.value), order;
    }
    hide RecordsIn, Readable;
    var left := logs.Keys;
    var hits: seq<(AgentId, Record)> := [];
    while left != {}
      invariant left <= logs.Keys
      invariant forall a :: a in order <==> a in logs && a !in left
      invariant forall i, j :: 0 <= i < j < |order| ==> order[i] != order[j]
      invariant hits == Hits(order, logs, key)
      decreases left
    {
      var a :| a in left;
      var more := CollectHits(a, records[a], key);
      HitsStep(order, logs, key, a);
      hits := hits + more;
      order := order + [a];
      left := left - {a};
    }
    if hits == [] {
      NoHits(order, logs, key);
      return Miss, order;
    }
    var delivered := seq(|hits|, i requires 0 <= i < |hits| => Delivery(hits[i].0, hits[i].1.seqNo));
    assert delivered == DeliveriesOfHits(hits);
    var sorted := SortBy(delivered, AgentOf);
    hide StrLe, Hits;
    result := Hit(SendResult(hits[0].1.id, sorted));
  }

  lemma HitsStep(order: seq<AgentId>, logs: Files, key: string, a: AgentId)
    requires a in logs
    ensures Hits(order + [a], logs, key) == Hits(order, logs, key) + HitsIn(a, RecordsIn(logs[a]), key)
  {
    hide RecordsIn, HitsIn;
    assert (order + [a])[..|order|] == order;
  }

  lemma NoHits(order: seq<AgentId>, logs: Files, key: string)
    requires Lists(order, logs) && Hits(order, logs, key) == []
    ensures !LogKnows(logs, key)
  {
    NoRecordsOutside(logs);
    hide RecordsOf, Hits;
    if a, r :| LogHasKey(logs, a, r, key) {
      HitsComplete(order, logs, key, a, r);
    }
  }

  /** findDedupLocked. */
  method FindDedup(rows: Table, logs: Files, key: string) returns (result: DedupResult, ghost order: seq<AgentId>)
    ensures result.Failed? <==> !RowKnows(rows, key) && exists a :: a in logs && !Readable(logs[a])
    ensures result.Miss? ==> !RowKnows(rows, key) && !LogKnows(logs, key)
    ensures result.Hit? ==>
              if RowKnows(rows, key) then IndexAnswer(rows, key, result.res)
              else Lists(order, logs) && ScanAnswer(order, logs, key, result.res)
  {
    order := [];
    var indexed := QueryIndex(rows, key);
    if indexed.Some? {
      return Hit(indexed.value), order;
    }
    result, order := ScanLogs(logs, key);
  }

  // ---- What an answer means ----

  ghost predicate Answers(d: Disk, key: string, res: SendResult) {
    if RowKnows(d.rows, key) then IndexAnswer(d.rows, key, res)
    else exists order :: Lists(order, d.logs) && ScanAnswer(order, d.logs, key, res)
  }

  /** With no assumption on who the key was sent to, every answer carries the id of a historical
      record bearing the key and lists only such records. */
  lemma AnswersAreHistorical(s: State, key: string, res: SendResult)
    requires Inv(s) && Answers(s.disk, key, res)
    ensures exists n :: HasKey(s.hist, n, key) && s.hist[n].rec.id == res.id
    ensures forall d :: d in res.delivered ==> HasKey(s.hist, NameOf(d), key)
  {
    assert RowsOk(s) && HistOk(s);
    hide Inv, RowsOk, HistOk, StrLe, Hits, RecordsOf, ByAgent, Lists, RowHasKey, HasKey, ScanAnswer;
    if RowKnows(s.disk.rows, key) {
      var n :| RowHasKey(s.disk.rows, n, key) && s.disk.rows[n].id == res.id;
      RowHasSentKey(s, n, key);
      forall d | d in res.delivered ensures HasKey(s.hist, NameOf(d), key) {
        assert Delivery(NameOf(d).0, NameOf(d).1) == d;
        RowHasSentKey(s, NameOf(d), key);
      }
    } else {
      var order :| Lists(order, s.disk.logs) && ScanAnswer(order, s.disk.logs, key, res);
      ScanIsHistorical(s, order, key, res);
    }
  }

  lemma HitIsHistorical(s: State, order: seq<AgentId>, key: string, i: nat)
    requires HistOk(s) && i < |Hits(order, s.disk.logs, key)|
    ensures var h := Hits(order, s.disk.logs, key)[i];
            HasKey(s.hist, (h.0, h.1.seqNo), key) && s.hist[(h.0, h.1.seqNo)].rec == h.1
  {
    hide Hits, RecordsOf, NamesOk, Kept;
    HitsSound(order, s.disk.logs, key, i);
    var h := Hits(order, s.disk.logs, key)[i];
    StoredHasKey(s.disk.logs, s.hist, s.disk.seqs, h.0, h.1, key);
  }

  lemma ScanIsHistorical(s: State, order: seq<AgentId>, key: string, res: SendResult)
    requires HistOk(s) && ScanAnswer(order, s.disk.logs, key, res)
    ensures exists n :: HasKey(s.hist, n, key) && s.hist[n].rec.id == res.id
    ensures forall d :: d in res.delivered ==> HasKey(s.hist, NameOf(d), key)
  {
    hide Hits, RecordsOf, ByAgent, HistOk;
    var hits := Hits(order, s.disk.logs, key);
    HitIsHistorical(s, order, key, 0);
    SamePermutation(res.delivered, DeliveriesOfHits(hits));
    forall d | d in res.delivered ensures HasKey(s.hist, NameOf(d), key) {
      var i :| 0 <= i < |hits| && DeliveriesOfHits(hits)[i] == d;
      HitIsHistorical(s, order, key, i);
    }
  }

  /** While no key has been forgotten, a later send with a key already written is answered with the
      original id and starts nothing. */
  lemma RepeatIsAnswered(s: State, n: Name, key: string, res: SendResult)
    requires Inv(s) && KeyInv(s) && HasKey(s.hist, n, key) && !AwaitsRow(s, n)
    ensures KeyKnown(s.disk, key)
    ensures forall job: Job, rs :: job.key == Some(key) ==> !CanBeginSend(s, job, rs)
    ensures Answers(s.disk, key, res) ==> res.id == s.hist[n].rec.id
  {
    hide Answers, RowHasKey, LogHasKey;
    if Answers(s.disk, key, res) {
      AnswersAreHistorical(s, key, res);
      var m :| HasKey(s.hist, m, key) && s.hist[m].rec.id == res.id;
      SendsFacts(s, m, n);
    }
  }
}
