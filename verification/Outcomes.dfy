/** What finished compactions, recoveries and dedup checks amount to, told on records and rows, and that the
    step machine really lets processes die anywhere. */
module Outcomes {
  import opened Text
  import opened Codec
  import opened CodecLaws
  import opened Sorting
  import opened Storage
  import opened StorageLaws
  import opened Compaction
  import opened Protocol
  import opened Invariant
  import opened Preservation
  import opened Runs
  import opened KeyedSends
  import opened Dedup
  import opened IndexCoverage
  import opened Bus

  // ---- Compaction ----

  /** On a log in seq order a finished compaction leaves in the log exactly the records above the bound and puts
      exactly the others behind the archive; its result counts them. */
  lemma CompactSplitsAtBound(d: Disk, e: Disk, a: AgentId, upTo: int, k: nat, r: Record)
    requires Moved(d, e, a, upTo, k) && Increasing(RecordsOf(d.logs, a))
    ensures r in RecordsOf(e.logs, a) <==> r in RecordsOf(d.logs, a) && r.seqNo > upTo
    ensures r in RecordsOf(e.archives, a) <==>
              r in RecordsOf(d.archives, a) || (r in RecordsOf(d.logs, a) && r.seqNo <= upTo)
    ensures |RecordsOf(e.logs, a)| + k == |RecordsOf(d.logs, a)|
    ensures |RecordsOf(e.archives, a)| == |RecordsOf(d.archives, a)| + k
  {
    hide RecordsIn, FileOf, CutOff, OtherFilesKept, Increasing;
    SplitAtBound(RecordsOf(d.logs, a), upTo, k, r);
  }

  lemma SplitAtBound(rs: seq<Record>, upTo: int, k: nat, r: Record)
    requires Increasing(rs) && k <= |rs| && (forall i :: 0 <= i < k ==> rs[i].seqNo <= upTo)
    requires k < |rs| ==> rs[k].seqNo > upTo
    ensures r in rs[..k] <==> r in rs && r.seqNo <= upTo
    ensures r in rs[k..] <==> r in rs && r.seqNo > upTo
  {
    PrefixIsExact(rs, upTo, k);
    hide Increasing;
    if r in rs {
      var i :| 0 <= i < |rs| && rs[i] == r;
      if i < k {
        assert rs[..k][i] == r;
      } else {
        assert rs[k..][i - k] == r;
      }
    }
  }

  /** Compacting again to the same bound moves nothing and changes nothing. */
  lemma CompactAgain(d: Disk, e: Disk, f: Disk, a: AgentId, upTo: int, k: nat, k': nat)
    requires Moved(d, e, a, upTo, k) && Moved(e, f, a, upTo, k') && Increasing(RecordsOf(d.logs, a))
    ensures k' == 0 && f == e
  {
    hide RecordsIn, FileOf, CutOff, OtherFilesKept, Increasing;
    var rest := RecordsOf(e.logs, a);
    forall r ensures r in rest ==> r.seqNo > upTo {
      SplitAtBound(RecordsOf(d.logs, a), upTo, k, r);
    }
    assert forall i :: 0 <= i < |rest| ==> rest[i] in rest;
  }

  // ---- Recovery ----

  /** The recovered counter: no live id is above it, and it is one of them unless it is 0. */
  ghost predicate CounterIsLargest(logs: Files, counter: nat) {
    && (forall a, r :: a in logs && r in RecordsOf(logs, a) ==> r.id <= counter)
    && (counter > 0 ==> exists a, r :: a in logs && r in RecordsOf(logs, a) && r.id == counter)
  }

  /** Every row is a live record's. */
  ghost predicate RowsAreRecords(logs: Files, rows: Table) {
    forall n :: n in rows ==>
      exists r :: r in RecordsOf(logs, n.0) && r.seqNo == n.1 && rows[n] == Row(r.id, r.from, r.dedup)
  }

  /** A live record without a key has its row; the key of a live record has some row. */
  ghost predicate HasRow(rows: Table, a: AgentId, r: Record) {
    if r.dedup == None then (a, r.seqNo) in rows else exists n :: n in rows && rows[n].dedup == r.dedup
  }

  /** The rebuilt table; no two rows bear one key. */
  ghost predicate TableFits(logs: Files, rows: Table) {
    && RowsAreRecords(logs, rows) && UniqueKeys(rows)
    && ((forall a :: Increasing(RecordsOf(logs, a))) ==> forall a, r :: r in RecordsOf(logs, a) ==> HasRow(rows, a, r))
  }

  /** A finished recovery cuts every log back to its whole records and loses none of them, recomputes counter
      and table from them, and leaves seq counters and archives alone. */
  lemma RecoverTells(d: Disk, counted: seq<AgentId>, indexed: seq<AgentId>, a: AgentId)
    requires !SomeUnreadable(d.logs) && Lists(counted, d.logs) && Lists(indexed, d.logs)
    ensures var e := AfterRecover(d, counted, indexed);
            && (a in e.logs <==> a in d.logs) && RecordsOf(e.logs, a) == RecordsOf(d.logs, a) && Settled(FileOf(e.logs, a))
            && FileOf(e.logs, a) <= FileOf(d.logs, a)
            && e.seqs == d.seqs && e.archives == d.archives
            && CounterIsLargest(e.logs, e.counter) && TableFits(e.logs, e.rows)
  {
    var e := AfterRecover(d, counted, indexed);
    TruncatedLog(d.logs, a);
    hide Truncated, TruncateAll, MaxIdOver, InsertSeq, Entries, RecordsOf, Settled, FileOf;
    SameOrder(d.logs, counted);
    SameOrder(d.logs, indexed);
    MaxIdOverBounds(counted, e.logs);
    hide Lists;
    BuiltTable(indexed, e.logs);
  }

  lemma SameOrder(logs: Files, order: seq<AgentId>)
    requires Lists(order, logs)
    ensures Lists(order, TruncateAll(logs))
  {
    hide Truncated;
    assert TruncateAll(logs).Keys == logs.Keys;
  }

  lemma TruncatedLog(logs: Files, a: AgentId)
    requires !SomeUnreadable(logs)
    ensures var g := TruncateAll(logs);
            && (a in g <==> a in logs) && RecordsOf(g, a) == RecordsOf(logs, a) && Settled(FileOf(g, a))
            && FileOf(g, a) <= FileOf(logs, a)
  {
    if a in logs {
      assert Readable(logs[a]);
      TruncatedIsSettled(logs[a]);
      hide ParseAll;
    }
  }

  lemma BuiltTable(order: seq<AgentId>, logs: Files)
    requires Lists(order, logs)
    ensures TableFits(logs, InsertSeq(Entries(order, logs)))
  {
    hide InsertSeq, Entries, RecordsOf, UniqueKeys, Increasing, Lists, HasRow, RowsAreLive, RowsAreRecords;
    var rows := InsertSeq(Entries(order, logs));
    BuiltRows(order, logs);
    LiveRowsTell(logs, rows);
    if forall a :: Increasing(RecordsOf(logs, a)) {
      forall a, r | r in RecordsOf(logs, a) ensures HasRow(rows, a, r) {
        RecordHasRow(order, logs, a, r);
      }
    }
  }

  lemma LiveRowsTell(logs: Files, rows: Table)
    requires RowsAreLive(rows, logs)
    ensures RowsAreRecords(logs, rows)
  {
    hide RecordsOf;
    forall n | n in rows
      ensures exists r :: r in RecordsOf(logs, n.0) && r.seqNo == n.1 && rows[n] == Row(r.id, r.from, r.dedup)
    {
      var r :| r in RecordsOf(logs, n.0) && r.seqNo == n.1 && rows[n] == RowOf(r);
    }
  }

  lemma RecordHasRow(order: seq<AgentId>, logs: Files, a: AgentId, r: Record)
    requires Lists(order, logs) && r in RecordsOf(logs, a) && forall b :: Increasing(RecordsOf(logs, b))
    ensures HasRow(InsertSeq(Entries(order, logs)), a, r)
  {
    hide InsertSeq, Entries, RecordsOf, Increasing, Lists, DistinctNames;
    EntriesAreDistinct(order, logs);
    var k := EntryOf(order, logs, a, r);
    if r.dedup == None {
      UnkeyedKeepsRow(Entries(order, logs), k);
    } else {
      var n := InsertSeqKeepsKey(Entries(order, logs), k);
    }
  }

  lemma EntryOf(order: seq<AgentId>, logs: Files, a: AgentId, r: Record) returns (k: nat)
    requires Lists(order, logs) && r in RecordsOf(logs, a)
    ensures k < |Entries(order, logs)| && Entries(order, logs)[k] == ((a, r.seqNo), RowOf(r))
  {
    NoRecordsOutside(logs);
    hide Entries, RecordsOf;
    var i :| 0 <= i < |RecordsOf(logs, a)| && RecordsOf(logs, a)[i] == r;
    InEntries(order, logs, a, i);
    k :| 0 <= k < |Entries(order, logs)| && Entries(order, logs)[k] == ((a, r.seqNo), RowOf(r));
  }

  lemma EntriesAreDistinct(order: seq<AgentId>, logs: Files)
    requires forall a :: Increasing(RecordsOf(logs, a))
    ensures DistinctNames(Entries(order, logs))
  {
    hide Entries, RecordsOf;
    var es := Entries(order, logs);
    forall i, j | 0 <= i < j < |es| && es[i].0 == es[j].0 ensures es[i] == es[j] {
      var m := EntrySource(order, logs, i);
      var n := EntrySource(order, logs, j);
      OnePlace(RecordsOf(logs, es[i].0.0), m, n);
    }
  }

  lemma OnePlace(rs: seq<Record>, m: nat, n: nat)
    requires Increasing(rs) && m < |rs| && n < |rs| && rs[m].seqNo == rs[n].seqNo
    ensures m == n
  {
  }

  lemma {:induction false} UnkeyedKeepsRow(es: seq<(Name, Row)>, i: nat)
    requires DistinctNames(es) && i < |es| && es[i].1.dedup == None
    ensures es[i].0 in InsertSeq(es) && InsertSeq(es)[es[i].0] == es[i].1
  {
    var last := |es| - 1;
    if es[last].0 != es[i].0 {
      UnkeyedKeepsRow(es[..last], i);
    }
  }

  // ---- Dedup answers ----

  /** What the dedup check answers: from the index, exactly the deliveries whose rows bear the key, under the id
      of one of them; if no row does, exactly the live records that bear it, under the id of one of them. In
      either case each once, in the order of the mailboxes. */
  lemma AnswerTells(d: Disk, key: string, res: SendResult, a: AgentId, q: int)
    requires Answers(d, key, res) && forall b :: Ascending(RecordsOf(d.logs, b))
    ensures (exists n :: n in d.rows && d.rows[n].dedup == Some(key)) ==>
              && (Delivery(a, q) in res.delivered <==> (a, q) in d.rows && d.rows[(a, q)].dedup == Some(key))
              && exists n :: n in d.rows && d.rows[n].dedup == Some(key) && d.rows[n].id == res.id
    ensures (forall n :: n in d.rows ==> d.rows[n].dedup != Some(key)) ==>
              && (Delivery(a, q) in res.delivered <==>
                    exists r :: r in RecordsOf(d.logs, a) && r.seqNo == q && r.dedup == Some(key))
              && exists b, r :: r in RecordsOf(d.logs, b) && r.dedup == Some(key) && r.id == res.id
    ensures forall i, j :: 0 <= i < j < |res.delivered| ==>
              res.delivered[i] != res.delivered[j] && StrLe(res.delivered[i].agent, res.delivered[j].agent)
  {
    hide StrLe, RecordsOf, Ascending, IndexAnswer, ScanAnswer, Lists, RowKnows;
    KnownByRow(d.rows, key);
    if RowKnows(d.rows, key) {
      IndexTells(d.rows, key, res, a, q);
    } else {
      var order :| Lists(order, d.logs) && ScanAnswer(order, d.logs, key, res);
      ScanTells(d.logs, order, key, res, a, q);
    }
  }

  lemma KnownByRow(rows: Table, key: string)
    ensures RowKnows(rows, key) <==> exists n :: n in rows && rows[n].dedup == Some(key)
  {
    if n :| n in rows && rows[n].dedup == Some(key) {
      assert RowHasKey(rows, n, key);
    }
  }

  lemma IndexTells(rows: Table, key: string, res: SendResult, a: AgentId, q: int)
    requires IndexAnswer(rows, key, res)
    ensures Delivery(a, q) in res.delivered <==> (a, q) in rows && rows[(a, q)].dedup == Some(key)
    ensures exists n :: n in rows && rows[n].dedup == Some(key) && rows[n].id == res.id
    ensures forall i, j :: 0 <= i < j < |res.delivered| ==>
              res.delivered[i] != res.delivered[j] && StrLe(res.delivered[i].agent, res.delivered[j].agent)
  {
    hide StrLe;
    assert RowHasKey(rows, (a, q), key) <==> Delivery((a, q).0, (a, q).1) in res.delivered;
  }

  lemma ScanTells(logs: Files, order: seq<AgentId>, key: string, res: SendResult, a: AgentId, q: int)
    requires Lists(order, logs) && ScanAnswer(order, logs, key, res) && forall b :: Ascending(RecordsOf(logs, b))
    ensures Delivery(a, q) in res.delivered <==>
              exists r :: r in RecordsOf(logs, a) && r.seqNo == q && r.dedup == Some(key)
    ensures exists b, r :: r in RecordsOf(logs, b) && r.dedup == Some(key) && r.id == res.id
    ensures forall i, j :: 0 <= i < j < |res.delivered| ==>
              res.delivered[i] != res.delivered[j] && StrLe(res.delivered[i].agent, res.delivered[j].agent)
  {
    hide StrLe, RecordsOf, Hits;
    var hits := Hits(order, logs, key);
    var ds := DeliveriesOfHits(hits);
    HitsSound(order, logs, key, 0);
    SamePermutation(ds, res.delivered);
    HitsNamed(order, logs, key, a, q);
    DistinctHits(order, logs, key);
    DistinctPermutation(ds, res.delivered);
  }

  lemma HitsNamed(order: seq<AgentId>, logs: Files, key: string, a: AgentId, q: int)
    requires Lists(order, logs)
    ensures Delivery(a, q) in DeliveriesOfHits(Hits(order, logs, key)) <==>
              exists r :: r in RecordsOf(logs, a) && r.seqNo == q && r.dedup == Some(key)
  {
    NoRecordsOutside(logs);
    hide RecordsOf, Hits;
    var hits := Hits(order, logs, key);
    var ds := DeliveriesOfHits(hits);
    if Delivery(a, q) in ds {
      var i :| 0 <= i < |ds| && ds[i] == Delivery(a, q);
      HitsSound(order, logs, key, i);
      assert hits[i].1 in RecordsOf(logs, a);
    }
    if r :| r in RecordsOf(logs, a) && r.seqNo == q && r.dedup == Some(key) {
      HitsComplete(order, logs, key, a, r);
      var i :| 0 <= i < |hits| && hits[i] == (a, r);
      assert ds[i] == Delivery(a, q);
    }
  }

  lemma DistinctHits(order: seq<AgentId>, logs: Files, key: string)
    requires Lists(order, logs) && forall b :: Ascending(RecordsOf(logs, b))
    ensures var ds := DeliveriesOfHits(Hits(order, logs, key));
            forall i, j :: 0 <= i < j < |ds| ==> ds[i] != ds[j]
  {
    hide RecordsOf, Hits, Ascending;
    var hits := Hits(order, logs, key);
    HitsDistinct(order, logs, key);
    forall i, j | 0 <= i < j < |hits| ensures DeliveryOf(hits[i]) != DeliveryOf(hits[j]) {
      HitsSound(order, logs, key, i);
      HitsSound(order, logs, key, j);
      if hits[i].0 == hits[j].0 {
        SeqTells(RecordsOf(logs, hits[i].0), hits[i].1, hits[j].1);
      }
    }
  }

  lemma SeqTells(rs: seq<Record>, r: Record, q: Record)
    requires Ascending(rs) && r in rs && q in rs
    ensures r.seqNo == q.seqNo ==> r == q
  {
  }

  // ---- Deaths ----

  /** Whoever holds the lock can be killed at any moment, and the power can fail at any moment: the disk stays
      as it is and the lock is free. */
  lemma DeathComesAnyTime(s: State)
    ensures s.lock.Held? ==> Enabled(s, Kill) && Apply(s, Kill) == s.(lock := Free)
    ensures Enabled(s, PowerLoss(0)) && Apply(s, PowerLoss(0)) == s.(lock := Free, down := true)
  {
  }

  /** A power loss while the first record of a send is being appended can leave any strict part of it behind the
      log, with its id and its seq already spent and no row. */
  lemma AppendCanTear(s: State, pid: nat, job: Job, rs: seq<AgentId>, n: nat)
    requires CanBeginSend(s, job, rs)
    requires var rec := RecordFor(job, s.disk.counter + 1, rs[0], SeqOf(s.disk.seqs, rs[0]) + 1); n < |Encoding(rec)|
    ensures var steps := [BeginSend(pid, job, rs), WriteSeq, PowerLoss(n)];
            var a, q := rs[0], SeqOf(s.disk.seqs, rs[0]) + 1;
            var log := FileOf(s.disk.logs, a) + Encoding(RecordFor(job, s.disk.counter + 1, a, q))[..n];
            && Legal(s, steps)
            && var t := Run(s, steps);
               && FileOf(t.disk.logs, a) == log && OtherFilesKept(s.disk.logs, t.disk.logs, a)
               && t.disk.counter == s.disk.counter + 1 && t.disk.seqs == s.disk.seqs[a := q]
               && t.disk.rows == s.disk.rows && t.disk.archives == s.disk.archives && t.lock.Free? && t.down
  {
    hide Encoding, JobOk, RecipientsOk, KeyKnown, StoredKey;
    var s1 := DoBeginSend(s, pid, job, rs);
    var s2 := DoWriteSeq(s1);
    var t := DoLosePower(s2, n);
    assert Legal(t, []) && Run(t, []) == t;
    Prepend(s2, PowerLoss(n), []);
    Prepend(s1, WriteSeq, [PowerLoss(n)] + []);
    Prepend(s, BeginSend(pid, job, rs), [WriteSeq] + ([PowerLoss(n)] + []));
    assert [BeginSend(pid, job, rs)] + ([WriteSeq] + ([PowerLoss(n)] + [])) == [BeginSend(pid, job, rs), WriteSeq, PowerLoss(n)];
  }
}
