/** The bus operations as they run: methods over the durable state of one root, each called with
    the lock held. Every method is proved against a function of the old disk (AfterSend,
    AfterCompact, AfterRecover), about which the protocol results speak. */
module Bus {
  import opened Text
  import opened Codec
  import opened CodecLaws
  import opened Sorting
  import opened Storage
  import opened StorageLaws
  import opened Compaction
  import opened Reading
  import opened Protocol
  import opened Runs
  import opened KeyedSends
  import opened Dedup
  import opened RegistryLog
  import R = Registry

  type Result<+T> = R.Result<T>

  function Fail<T>(e: R.BusError): Result<T> {
    R.Err(e)
  }

  // ---- What a send does ----

  /** An empty dedup_id means that none was given. */
  function KeyOf(dedupId: string): Option<string> {
    if dedupId == "" then None else Some(dedupId)
  }

  ghost predicate SomeUnreadable(logs: Files) {
    exists a :: a in logs && !Readable(logs[a])
  }

  /** One agent if it is alive, or all alive agents of a role in order. */
  ghost predicate Expands(agents: Agents, toAgent: string, toRole: string, rs: seq<AgentId>) {
    if toAgent != "" then rs == if IsAlive(agents, toAgent) then [toAgent] else []
    else IsExpansion(agents, toRole, rs)
  }

  function Unknown(toAgent: string, toRole: string): R.BusError {
    R.RecipientUnknown(if toAgent != "" then toAgent else "role " + toRole)
  }

  /** What sendLocked returns and leaves on disk: a known key is answered and nothing is written; an
      unknown recipient is refused before an id is taken; otherwise the send is carried out. */
  ghost predicate Sent(d: Disk, agents: Agents, job: Job, toAgent: string, toRole: string,
                       r: Result<SendResult>, after: Disk)
  {
    if job.key.Some? && !RowKnows(d.rows, job.key.value) && SomeUnreadable(d.logs) then
      r.Err? && r.error.CorruptLog? && after == d
    else if job.key.Some? && KeyKnown(d, job.key.value) then
      r.Ok? && Answers(d, job.key.value, r.value) && after == d
    else
      exists rs :: Expands(agents, toAgent, toRole, rs)
                   && if rs == [] then r == Fail(Unknown(toAgent, toRole)) && after == d
                      else r == R.Ok(ResultOf(d, job, rs)) && after == AfterSend(d, job, rs)
  }

  /** Whatever fails, nothing is written. */
  lemma FailedSendWritesNothing(d: Disk, agents: Agents, job: Job, toAgent: string, toRole: string,
                                r: Result<SendResult>, after: Disk)
    requires Sent(d, agents, job, toAgent, toRole, r, after) && r.Err?
    ensures after == d
  {
    hide Answers, KeyKnown, RowKnows, SomeUnreadable, Expands, AfterSend;
  }

  predicate SendArgsOk(agentId: string, toAgent: string, toRole: string, kind: string) {
    && R.ValidAgentId(agentId)
    && (toAgent == "") != (toRole == "")
    && (toAgent != "" ==> R.ValidAgentId(toAgent))
    && kind in ["prompt", "info", "reply"]
  }

  /** The arguments that are refused. */
  lemma SendArgsRefused(agentId: string, toAgent: string, toRole: string, kind: string)
    ensures !SendArgsOk(agentId, toAgent, toRole, kind) <==>
            || !R.ValidAgentId(agentId)
            || (toAgent == "" && toRole == "") || (toAgent != "" && toRole != "")
            || (toAgent != "" && !R.ValidAgentId(toAgent))
            || (kind != "prompt" && kind != "info" && kind != "reply")
  {
  }

  function NotAlive(agents: Agents, id: string): R.BusError {
    if id in agents then R.AgentRemoved(id) else R.AgentNotRegistered(id)
  }

  /** The job of a send by an agent that is alive. */
  function JobOf(sender: Agent, kind: string, body: Bytes, inReplyTo: Option<int>, now: string, dedupId: string): Job {
    Job(sender.agentId, sender.role, kind, body, inReplyTo, now, KeyOf(dedupId))
  }

  // ---- What a lookup finds ----

  /** The live log first; the archive is read only when the live log has no such record. */
  function LookupOutcome(log: Bytes, archive: Bytes, id: int): Result<Option<Record>> {
    match ParseAll(log)
    case Fails(e) => Fail(R.CorruptLog(e))
    case Parses(live, _, _) =>
      if FindId(live, id).Some? then R.Ok(FindId(live, id))
      else
        match ParseAll(archive)
        case Fails(e) => Fail(R.CorruptLog(e))
        case Parses(cold, _, _) => R.Ok(FindId(cold, id))
  }

  /** On readable files that is the lookup compaction is proved not to disturb. */
  lemma LookupOutcomeIsLookup(log: Bytes, archive: Bytes, id: int)
    requires Readable(log) && Readable(archive)
    ensures LookupOutcome(log, archive, id) == R.Ok(Lookup(Pair(log, archive), id))
  {
    hide ParseAll, FindId;
  }

  /** What replyLocked returns and leaves on disk: a known key is answered before the cited record is looked
      up in the caller's mailbox; otherwise the reply is a send to that record's sender. */
  ghost predicate Replied(d: Disk, agents: Agents, job: Job, mailbox: AgentId, cites: int, r: Result<SendResult>,
                          after: Disk)
  {
    var cited := LookupOutcome(FileOf(d.logs, mailbox), FileOf(d.archives, mailbox), cites);
    if job.key.Some? && !RowKnows(d.rows, job.key.value) && SomeUnreadable(d.logs) then
      r.Err? && r.error.CorruptLog? && after == d
    else if job.key.Some? && KeyKnown(d, job.key.value) then
      r.Ok? && Answers(d, job.key.value, r.value) && after == d
    else if cited.Err? then r == Fail(cited.error) && after == d
    else if cited.value.None? then r == Fail(R.InReplyToNotFound(cites)) && after == d
    else Sent(d, agents, job, cited.value.value.from, "", r, after)
  }

  // ---- What a compaction does ----

  function AfterCompact(d: Disk, a: AgentId, upTo: int): Disk {
    var log := FileOf(d.logs, a);
    var c := CompactPoint(log, upTo);
    if c.CutFails? || c.boundary == 0 then d
    else d.(archives := AppendTo(d.archives, a, log[..c.boundary]), logs := d.logs[a := log[c.boundary..]])
  }

  /** All files but the one mailbox's are the same. */
  ghost predicate OtherFilesKept(f: Files, g: Files, a: AgentId) {
    forall b :: b != a ==> (b in g <==> b in f) && (b in f ==> g[b] == f[b])
  }

  /** The leading bytes that left the log stand behind the archive; they end on a record boundary. */
  ghost predicate CutOff(log: Bytes, log': Bytes, archive: Bytes, archive': Bytes) {
    && |log'| <= |log|
    && var n := |log| - |log'|;
       && log' == log[n..] && archive' == archive + log[..n] && Settled(log[..n]) && (Settled(log') <==> Settled(log))
  }

  /** What a finished compaction that reports k leaves, told on records and bytes: the k leading records, all
      with seq up to the bound, are gone from the log and stand behind the archive's; the first one that stays
      is above the bound; the log keeps its other bytes, a torn tail included; nothing else changes. */
  ghost predicate Moved(d: Disk, e: Disk, a: AgentId, upTo: int, k: nat) {
    var before, after := FileOf(d.logs, a), FileOf(e.logs, a);
    var rs := RecordsIn(before);
    && k <= |rs| && RecordsIn(after) == rs[k..] && (forall i :: 0 <= i < k ==> rs[i].seqNo <= upTo)
    && (k < |rs| ==> rs[k].seqNo > upTo)
    && RecordsOf(e.archives, a) == RecordsOf(d.archives, a) + rs[..k]
    && CutOff(before, after, FileOf(d.archives, a), FileOf(e.archives, a))
    && (k == 0 ==> e == d)
    && OtherFilesKept(d.logs, e.logs, a) && OtherFilesKept(d.archives, e.archives, a)
    && e.counter == d.counter && e.seqs == d.seqs && e.rows == d.rows
  }

  lemma CompactMoves(d: Disk, a: AgentId, upTo: int)
    requires Readable(FileOf(d.logs, a)) && Settled(FileOf(d.archives, a))
    ensures CompactPoint(FileOf(d.logs, a), upTo).CutAt?
    ensures Moved(d, AfterCompact(d, a, upTo), a, upTo, CompactPoint(FileOf(d.logs, a), upTo).archived)
  {
    hide ParseAll, CompactPoint, CutOff, OtherFilesKept;
    var log, archive := FileOf(d.logs, a), FileOf(d.archives, a);
    CompactCuts(log, upTo);
    var c := CompactPoint(log, upTo);
    PrefixCutOff(log, archive, c.boundary);
    SettledConcat(archive, log[..c.boundary]);
    CompactFiles(d, a, upTo);
    hide AfterCompact, Settled, Readable, FileOf;
  }

  lemma PrefixCutOff(log: Bytes, archive: Bytes, b: nat)
    requires b <= |log| && Settled(log[..b]) && (Settled(log[b..]) <==> Settled(log))
    ensures CutOff(log, log[b..], archive, archive + log[..b])
  {
    hide Settled;
  }

  /** The files of the mailbox after a compaction, and that all others are kept. */
  lemma CompactFiles(d: Disk, a: AgentId, upTo: int)
    requires CompactPoint(FileOf(d.logs, a), upTo).CutAt?
    ensures var e, c := AfterCompact(d, a, upTo), CompactPoint(FileOf(d.logs, a), upTo);
            && FileOf(e.logs, a) == FileOf(d.logs, a)[c.boundary..]
            && FileOf(e.archives, a) == FileOf(d.archives, a) + FileOf(d.logs, a)[..c.boundary]
            && OtherFilesKept(d.logs, e.logs, a) && OtherFilesKept(d.archives, e.archives, a)
            && (c.boundary == 0 ==> e == d)
            && e.counter == d.counter && e.seqs == d.seqs && e.rows == d.rows
  {
    hide CompactPoint;
    if CompactPoint(FileOf(d.logs, a), upTo).boundary == 0 {
      assert FileOf(d.logs, a)[..0] == "" && FileOf(d.archives, a) + "" == FileOf(d.archives, a);
      assert FileOf(d.logs, a)[0..] == FileOf(d.logs, a);
    }
  }

  // ---- What a recovery does ----

  function TruncateAll(logs: Files): Files {
    map a | a in logs :: Truncated(logs[a])
  }

  /** Some torn tails are gone, everything else is as it was. */
  ghost predicate OnlyTruncates(before: Files, after: Files) {
    && after.Keys == before.Keys
    && forall a :: a in after ==> after[a] == before[a] || after[a] == Truncated(before[a])
  }

  /** The counter and the index are recomputed from the truncated logs, visited in some order. */
  function AfterRecover(d: Disk, counted: seq<AgentId>, indexed: seq<AgentId>): Disk {
    var logs := TruncateAll(d.logs);
    Disk(MaxIdOver(counted, logs), d.seqs, logs, d.archives, InsertSeq(Entries(indexed, logs)))
  }

  lemma SnocOrder(order: seq<AgentId>, a: AgentId)
    ensures (order + [a])[..|order|] == order
  {
  }

  lemma MaxIdSnoc(rs: seq<Record>, i: nat)
    requires i < |rs|
    ensures MaxId(rs[..i + 1]) == if rs[i].id > MaxId(rs[..i]) then rs[i].id else MaxId(rs[..i])
  {
    assert rs[..i + 1][..i] == rs[..i];
  }

  method LargestId(rs: seq<Record>, start: nat) returns (maxId: nat)
    ensures maxId == if MaxId(rs) > start then MaxId(rs) else start
  {
    maxId := start;
    for i := 0 to |rs|
      invariant maxId == if MaxId(rs[..i]) > start then MaxId(rs[..i]) else start
    {
      MaxIdSnoc(rs, i);
      if rs[i].id > maxId {
        maxId := rs[i].id;
      }
    }
    assert rs[..|rs|] == rs;
  }

  /** listMailboxAgents: the existing logs in directory order, which no result depends on. */
  method ListMailboxAgents(logs: Files) returns (order: seq<AgentId>)
    ensures Lists(order, logs)
  {
    order := [];
    var left := logs.Keys;
    while left != {}
      invariant left <= logs.Keys
      invariant forall a :: a in order <==> a in logs && a !in left
      invariant forall i, j :: 0 <= i < j < |order| ==> order[i] != order[j]
      decreases left
    {
      var a :| a in left;
      order := order + [a];
      left := left - {a};
    }
  }

  /** maxObservedID on logs that all parse. */
  method MaxObservedId(logs: Files) returns (maxId: nat, ghost order: seq<AgentId>)
    requires forall a :: a in logs ==> Readable(logs[a])
    ensures Lists(order, logs) && maxId == MaxIdOver(order, logs)
    ensures forall a, r :: a in logs && r in RecordsOf(logs, a) ==> r.id <= maxId
    ensures maxId > 0 ==> exists a, r :: a in logs && r in RecordsOf(logs, a) && r.id == maxId
  {
    hide ParseAll;
    var ids := ListMailboxAgents(logs);
    order := ids;
    maxId := 0;
    for k := 0 to |ids|
      invariant maxId == MaxIdOver(ids[..k], logs)
    {
      assert ids[..k + 1][..k] == ids[..k];
      var parsed := ParseRecords(logs[ids[k]]);
      maxId := LargestId(parsed.records, maxId);
    }
    assert ids[..|ids|] == ids;
    hide RecordsOf;
    MaxIdOverBounds(ids, logs);
  }

  /** Every row is the row of a live record under its name. */
  ghost predicate RowsAreLive(rows: Table, logs: Files) {
    forall n :: n in rows ==> exists r :: r in RecordsOf(logs, n.0) && r.seqNo == n.1 && rows[n] == RowOf(r)
  }

  lemma BuiltRows(order: seq<AgentId>, logs: Files)
    ensures UniqueKeys(InsertSeq(Entries(order, logs))) && RowsAreLive(InsertSeq(Entries(order, logs)), logs)
  {
    hide InsertSeq, Entries, RecordsOf, UniqueKeys;
    var es := Entries(order, logs);
    InsertSeqUnique(es);
    forall n | n in InsertSeq(es)
      ensures exists r :: r in RecordsOf(logs, n.0) && r.seqNo == n.1 && InsertSeq(es)[n] == RowOf(r)
    {
      var k := InsertSeqSource(es, n);
      var i := EntrySource(order, logs, k);
      assert RecordsOf(logs, n.0)[i] in RecordsOf(logs, n.0);
    }
  }

  lemma InsertEntry(es: seq<(Name, Row)>, a: AgentId, rs: seq<Record>, i: nat)
    requires i < |rs|
    ensures InsertSeq(es + EntriesOf(a, rs[..i + 1]))
            == InsertOrReplace(InsertSeq(es + EntriesOf(a, rs[..i])), (a, rs[i].seqNo), RowOf(rs[i]))
  {
    hide InsertOrReplace;
    var xs := es + EntriesOf(a, rs[..i + 1]);
    assert xs[..|xs| - 1] == es + EntriesOf(a, rs[..i]);
  }

  /** rebuildIndexLocked on logs that all parse: the table is emptied and every record inserted. */
  method BuildIndex(logs: Files) returns (rows: Table, ghost order: seq<AgentId>)
    requires forall a :: a in logs ==> Readable(logs[a])
    ensures Lists(order, logs) && rows == InsertSeq(Entries(order, logs))
    ensures UniqueKeys(rows) && RowsAreLive(rows, logs)
  {
    hide ParseAll, InsertOrReplace, InsertSeq, UniqueKeys, RowsAreLive;
    var error, byAgent := ReadAllLogs(logs);
    rows := map[];
    order := [];
    EmptyTable();
    var left := logs.Keys;
    while left != {}
      invariant left <= logs.Keys
      invariant forall a :: a in order <==> a in logs && a !in left
      invariant forall i, j :: 0 <= i < j < |order| ==> order[i] != order[j]
      invariant rows == InsertSeq(Entries(order, logs))
      decreases left
    {
      var a :| a in left;
      var rs := byAgent[a];
      ghost var es := Entries(order, logs);
      assert es + EntriesOf(a, rs[..0]) == es;
      for i := 0 to |rs|
        invariant rows == InsertSeq(es + EntriesOf(a, rs[..i]))
      {
        InsertEntry(es, a, rs, i);
        rows := InsertOrReplace(rows, (a, rs[i].seqNo), RowOf(rs[i]));
      }
      assert rs[..|rs|] == rs;
      SnocOrder(order, a);
      order := order + [a];
      left := left - {a};
    }
    BuiltRows(order, logs);
  }

  lemma EmptyTable()
    ensures InsertSeq([]) == map[]
  {
  }

  lemma UnfoldDeliveries(d: Disk, job: Job, id: nat, rs: seq<AgentId>)
    requires rs != []
    ensures DeliveriesOf(d, job, id, rs)
            == [Delivery(rs[0], SeqOf(d.seqs, rs[0]) + 1)] + DeliveriesOf(DeliverTo(d, job, id, rs[0]), job, id, rs[1..])
  {
    hide DeliverTo;
  }

  /** One more recipient served: what the rest of the send will do does not change. */
  lemma ServeNext(d: Disk, job: Job, id: nat, rs: seq<AgentId>, i: nat)
    requires i < |rs|
    ensures DeliverAll(d, job, id, rs[i..]) == DeliverAll(DeliverTo(d, job, id, rs[i]), job, id, rs[i + 1..])
    ensures DeliveriesOf(d, job, id, rs[i..])
            == [Delivery(rs[i], SeqOf(d.seqs, rs[i]) + 1)] + DeliveriesOf(DeliverTo(d, job, id, rs[i]), job, id, rs[i + 1..])
  {
    hide DeliverTo, DeliverAll, DeliveriesOf, SeqOf;
    assert rs[i..][0] == rs[i] && rs[i..][1..] == rs[i + 1..];
    Unfold(d, job, id, rs[i..]);
    UnfoldDeliveries(d, job, id, rs[i..]);
  }

  class Bus {
    const registry: R.Registry
    var counter: nat
    var seqs: map<AgentId, nat>
    var logs: Files
    var archives: Files
    var rows: Table

    /** The durable state. */
    function Disk(): Storage.Disk
      reads this
    {
      Storage.Disk.Disk(counter, seqs, logs, archives, rows)
    }

    constructor (registry: R.Registry)
      ensures this.registry == registry && Disk() == EMPTY
    {
      this.registry := registry;
      counter, seqs, logs, archives, rows := 0, map[], map[], map[], map[];
    }

    /** The delivery loop of sendLocked: per recipient the seq is taken and persisted, the record
        appended and its row inserted, in this order. */
    method Deliver(job: Job, id: nat, rs: seq<AgentId>) returns (delivered: seq<Delivery>)
      modifies this
      ensures Disk() == DeliverAll(old(Disk()), job, id, rs)
      ensures delivered == DeliveriesOf(old(Disk()), job, id, rs)
    {
      hide DeliverAll, DeliveriesOf, Encoding, InsertOrReplace;
      delivered := [];
      assert rs[0..] == rs;
      ghost var d := Disk();
      for i := 0 to |rs|
        invariant DeliverAll(d, job, id, rs) == DeliverAll(Disk(), job, id, rs[i..])
        invariant DeliveriesOf(d, job, id, rs) == delivered + DeliveriesOf(Disk(), job, id, rs[i..])
      {
        ghost var before := Disk();
        ServeNext(before, job, id, rs, i);
        var r := rs[i];
        var seqNo := SeqOf(seqs, r) + 1;
        seqs := seqs[r := seqNo];
        var rec := Record(seqNo, id, job.from, job.fromRole, r, job.kind, job.inReplyTo, job.ts, job.key, job.body);
        SameBytes(job, id, r, seqNo);
        var encoded := Encode(rec);
        logs := AppendTo(logs, r, encoded);
        rows := InsertOrReplace(rows, (r, seqNo), RowOf(rec));
        delivered := delivered + [Delivery(r, seqNo)];
        assert RowOf(rec) == RowFor(job, id);
        assert Disk() == DeliverTo(before, job, id, r);
      }
      NothingLeft(Disk(), job, id, rs[|rs|..]);
    }

    method SendLocked(job: Job, toAgent: string, toRole: string) returns (r: Result<SendResult>)
      modifies this
      ensures Sent(old(Disk()), registry.Agents(), job, toAgent, toRole, r, Disk())
    {
      hide AgentsOf, Answers, DeliverAll, DeliveriesOf, IsExpansion, IndexAnswer, ScanAnswer, Lists, Readable;
      if job.key.Some? {
        ghost var order;
        var dedup;
        dedup, order := FindDedup(rows, logs, job.key.value);
        KnownKey(Disk(), job.key.value, dedup, order);
        if dedup.Failed? {
          return Fail(R.CorruptLog(dedup.error));
        }
        if dedup.Hit? {
          return R.Ok(dedup.res);
        }
      }
      var agents := registry.ReadRegistryLog();
      var recipients;
      if toAgent != "" {
        if toAgent !in agents || agents[toAgent].membership != "alive" {
          assert Expands(agents, toAgent, toRole, []);
          return Fail(R.RecipientUnknown(toAgent));
        }
        recipients := [toAgent];
      } else {
        recipients := ExpandRole(agents, toRole);
        if |recipients| == 0 {
          assert Expands(agents, toAgent, toRole, []);
          return Fail(R.RecipientUnknown("role " + toRole));
        }
      }
      assert Expands(agents, toAgent, toRole, recipients);
      var id := counter + 1;
      counter := id;
      var delivered := Deliver(job, id, recipients);
      r := R.Ok(SendResult(id, delivered));
    }

    method Send(agentId: string, toAgent: string, toRole: string, kind: string, body: Bytes, inReplyTo: Option<int>,
                dedupId: string, now: string) returns (r: Result<SendResult>)
      modifies this
      ensures r.Err? ==> Disk() == old(Disk())
      ensures var agents := registry.Agents();
              if !SendArgsOk(agentId, toAgent, toRole, kind) then r == Fail(R.InvalidArgument)
              else if !IsAlive(agents, agentId) then r == Fail(NotAlive(agents, agentId))
              else Sent(old(Disk()), agents,
                        Job(agents[agentId].agentId, agents[agentId].role, kind, body, inReplyTo, now,
                            if dedupId == "" then None else Some(dedupId)),
                        toAgent, toRole, r, Disk())
    {
      hide AgentsOf, Sent;
      if !R.ValidAgentId(agentId) {
        return Fail(R.InvalidArgument);
      }
      if toAgent == "" && toRole == "" {
        return Fail(R.InvalidArgument);
      }
      if toAgent != "" && toRole != "" {
        return Fail(R.InvalidArgument);
      }
      if toAgent != "" && !R.ValidAgentId(toAgent) {
        return Fail(R.InvalidArgument);
      }
      if kind != "prompt" && kind != "info" && kind != "reply" {
        return Fail(R.InvalidArgument);
      }
      var sender := registry.RequireAgent(agentId);
      if sender.Err? {
        return Fail(sender.error);
      }
      var job := JobOf(sender.value, kind, body, inReplyTo, now, dedupId);
      r := SendLocked(job, toAgent, toRole);
      if r.Err? {
        FailedSendWritesNothing(old(Disk()), registry.Agents(), job, toAgent, toRole, r, Disk());
      }
    }

    /** lookupRecordByID: the live log first, then the archive. */
    method LookupRecordById(agentId: string, id: int) returns (r: Result<Option<Record>>)
      ensures r == LookupOutcome(FileOf(logs, agentId), FileOf(archives, agentId), id)
    {
      hide ParseAll, FindId;
      var live := ParseRecords(FileOf(logs, agentId));
      if live.Fails? {
        return Fail(R.CorruptLog(live.error));
      }
      var found := ScanForId(live.records, id);
      if found.Some? {
        return R.Ok(found);
      }
      if agentId !in archives {
        EmptyFile(id);
        return R.Ok(None);
      }
      var cold := ParseRecords(archives[agentId]);
      if cold.Fails? {
        return Fail(R.CorruptLog(cold.error));
      }
      found := ScanForId(cold.records, id);
      r := R.Ok(found);
    }

    /** A reply is a send of kind "reply" to the sender of the cited record; a known key is answered
        before the record is looked up. */
    method Reply(agentId: string, inReplyTo: int, body: Bytes, dedupId: string, now: string)
      returns (r: Result<SendResult>)
      modifies this
      ensures r.Err? ==> Disk() == old(Disk())
      ensures var agents := registry.Agents();
              if !R.ValidAgentId(agentId) || inReplyTo <= 0 then r == Fail(R.InvalidArgument)
              else if !IsAlive(agents, agentId) then r == Fail(NotAlive(agents, agentId))
              else Replied(old(Disk()), agents,
                           Job(agents[agentId].agentId, agents[agentId].role, "reply", body, Some(inReplyTo), now,
                               if dedupId == "" then None else Some(dedupId)),
                           agentId, inReplyTo, r, Disk())
    {
      hide AgentsOf, Sent, Answers, LookupOutcome, Readable, KeyKnown, RowKnows, IndexAnswer, ScanAnswer, Lists;
      if !R.ValidAgentId(agentId) {
        return Fail(R.InvalidArgument);
      }
      if inReplyTo <= 0 {
        return Fail(R.InvalidArgument);
      }
      var sender := registry.RequireAgent(agentId);
      if sender.Err? {
        return Fail(sender.error);
      }
      var job := JobOf(sender.value, "reply", body, Some(inReplyTo), now, dedupId);
      if job.key.Some? {
        ghost var order;
        var dedup;
        dedup, order := FindDedup(rows, logs, job.key.value);
        KnownKey(Disk(), job.key.value, dedup, order);
        if dedup.Failed? {
          return Fail(R.CorruptLog(dedup.error));
        }
        if dedup.Hit? {
          return R.Ok(dedup.res);
        }
      }
      var orig := LookupRecordById(agentId, inReplyTo);
      if orig.Err? {
        return Fail(orig.error);
      }
      if orig.value.None? {
        return Fail(R.InReplyToNotFound(inReplyTo));
      }
      r := SendLocked(job, orig.value.value.from, "");
      if r.Err? {
        FailedSendWritesNothing(old(Disk()), registry.Agents(), job, orig.value.value.from, "", r, Disk());
      }
    }

    /** compactLocked: the archive grows first, then the live log is rewritten. Seq counters and
        index rows are left alone. */
    method CompactLocked(agentId: AgentId, upTo: int) returns (r: Result<nat>)
      modifies this
      ensures Disk() == AfterCompact(old(Disk()), agentId, upTo)
      ensures match CompactPoint(FileOf(old(logs), agentId), upTo)
              case CutAt(_, k) => r == R.Ok(k)
              case CutFails(e) => r == Fail(R.CorruptLog(e))
      ensures Readable(FileOf(old(logs), agentId)) && Settled(FileOf(old(archives), agentId)) ==>
                r.Ok? && Moved(old(Disk()), Disk(), agentId, upTo, r.value)
    {
      hide Moved, Readable, Settled;
      if Readable(FileOf(logs, agentId)) && Settled(FileOf(archives, agentId)) {
        CompactMoves(Disk(), agentId, upTo);
      }
      if agentId !in logs {
        return R.Ok(0);
      }
      hide CompactPoint;
      var c := FindBoundary(logs[agentId], upTo);
      if c.CutFails? {
        return Fail(R.CorruptLog(c.error));
      }
      if c.boundary == 0 {
        return R.Ok(0);
      }
      var prefix := logs[agentId][..c.boundary];
      var suffix := logs[agentId][c.boundary..];
      archives := AppendTo(archives, agentId, prefix);
      logs := logs[agentId := suffix];
      r := R.Ok(c.archived);
    }

    method Compact(agentId: string, upTo: int) returns (r: Result<nat>)
      modifies this
      ensures r.Err? ==> Disk() == old(Disk())
      ensures var agents := registry.Agents();
              if !R.ValidAgentId(agentId) || upTo < 0 then r == Fail(R.InvalidArgument)
              else if !IsAlive(agents, agentId) then r == Fail(NotAlive(agents, agentId))
              else
                && Disk() == AfterCompact(old(Disk()), agentId, upTo)
                && (match CompactPoint(FileOf(old(logs), agentId), upTo)
                    case CutAt(_, k) => r == R.Ok(k)
                    case CutFails(e) => r == Fail(R.CorruptLog(e)))
                && (Readable(FileOf(old(logs), agentId)) && Settled(FileOf(old(archives), agentId)) ==>
                      r.Ok? && Moved(old(Disk()), Disk(), agentId, upTo, r.value))
    {
      hide AgentsOf, CompactPoint, Moved, Readable, Settled;
      if !R.ValidAgentId(agentId) || upTo < 0 {
        return Fail(R.InvalidArgument);
      }
      var owner := registry.RequireAgent(agentId);
      if owner.Err? {
        return Fail(owner.error);
      }
      r := CompactLocked(agentId, upTo);
    }

    /** The first loop of recover. */
    method TruncateTails() returns (error: Option<ParseError>)
      modifies this`logs
      ensures error.Some? <==> SomeUnreadable(old(logs))
      ensures error.Some? ==> OnlyTruncates(old(logs), logs)
      ensures error.None? ==> logs == TruncateAll(old(logs))
    {
      hide ParseAll;
      var ids := ListMailboxAgents(logs);
      for k := 0 to |ids|
        invariant logs.Keys == old(logs).Keys
        invariant forall i :: 0 <= i < k ==> Readable(old(logs)[ids[i]]) && logs[ids[i]] == Truncated(old(logs)[ids[i]])
        invariant forall i :: k <= i < |ids| ==> logs[ids[i]] == old(logs)[ids[i]]
      {
        var data := logs[ids[k]];
        var parsed := ParseRecords(data);
        if parsed.Fails? {
          assert !Readable(old(logs)[ids[k]]);
          return Some(parsed.error);
        }
        if !parsed.tailComplete && parsed.consumed < |data| {
          logs := logs[ids[k] := data[..parsed.consumed]];
        }
        assert logs[ids[k]] == Truncated(data);
      }
      error := None;
    }

    /** recover: truncates torn tails, recomputes the id counter from the live logs and rebuilds the
        index. A log that does not parse stops it with nothing changed but truncated tails. */
    method Recover() returns (error: Option<ParseError>, ghost counted: seq<AgentId>, ghost indexed: seq<AgentId>)
      modifies this
      ensures error.Some? <==> SomeUnreadable(old(logs))
      ensures error.Some? ==> Disk() == old(Disk()).(logs := logs) && OnlyTruncates(old(logs), logs)
      ensures error.None? ==>
                && Lists(counted, old(logs)) && Lists(indexed, old(logs))
                && Disk() == AfterRecover(old(Disk()), counted, indexed)
    {
      hide Truncated, Readable, OnlyTruncates, MaxIdOver, InsertSeq, Entries;
      counted, indexed := [], [];
      error := TruncateTails();
      if error.Some? {
        return;
      }
      AllReadableAfter(old(logs));
      counter, counted := MaxObservedId(logs);
      rows, indexed := BuildIndex(logs);
    }

    /** ReadMailbox, with the final stable sort by seq. */
    method ReadMailbox(agentId: string, since: int, kind: string, limit: int) returns (r: Result<seq<Record>>)
      ensures !R.ValidAgentId(agentId) || since < 0 || limit < 0 ==> r == Fail(R.InvalidArgument)
      ensures R.ValidAgentId(agentId) && since >= 0 && limit >= 0 ==>
                if !IsAlive(registry.Agents(), agentId) then r == Fail(R.NoSuchMailbox(agentId))
                else if !Readable(FileOf(logs, agentId)) then r.Err? && r.error.CorruptLog?
                else
                  var cap := if limit == 0 then DEFAULT_READ_LIMIT else limit;
                  var rs := RecordsOf(logs, agentId);
                  && r.Ok? && multiset(r.value) == multiset(Page(rs, since, kind, cap))
                  && InSeqOrder(r.value)
                  && (Increasing(rs) ==> r.value == Page(rs, since, kind, cap))
                  && PageTells(rs, since, kind, if limit == 0 then 256 else limit, r.value)
    {
      hide AgentsOf, ParseAll, Page, PageTells;
      if !R.ValidAgentId(agentId) || since < 0 || limit < 0 {
        return Fail(R.InvalidArgument);
      }
      var error := registry.RequireMailbox(agentId);
      if error.Some? {
        return Fail(error.value);
      }
      var parsed := ParseRecords(FileOf(logs, agentId));
      if parsed.Fails? {
        return Fail(R.CorruptLog(parsed.error));
      }
      var page := ReadPage(parsed.records, since, kind, limit);
      var out := SortBySeq(page);
      SortedTells(parsed.records, since, kind, if limit == 0 then 256 else limit, page, out);
      if Increasing(parsed.records) {
        PageInOrder(parsed.records, since, kind, if limit == 0 then DEFAULT_READ_LIMIT else limit);
        SortIsIdentity(page, out);
      }
      r := R.Ok(out);
    }
  }

  lemma SortedTells(rs: seq<Record>, since: int, kind: string, limit: nat, page: seq<Record>, out: seq<Record>)
    requires PageTells(rs, since, kind, limit, page) && multiset(out) == multiset(page)
    ensures PageTells(rs, since, kind, limit, out)
  {
    SamePermutation(page, out);
    assert |out| == |multiset(out)| == |page|;
  }

  /** A key "-" is written as no key is. */
  lemma SameBytes(job: Job, id: int, a: AgentId, seqNo: int)
    ensures var sent := Record(seqNo, id, job.from, job.fromRole, a, job.kind, job.inReplyTo, job.ts, job.key, job.body);
            Encoding(sent) == Encoding(RecordFor(job, id, a, seqNo))
  {
    hide Render, Itoa;
  }

  lemma NothingLeft(d: Disk, job: Job, id: nat, rs: seq<AgentId>)
    requires rs == []
    ensures DeliverAll(d, job, id, rs) == d && DeliveriesOf(d, job, id, rs) == []
  {
  }

  /** A missing archive has nothing to find. */
  lemma EmptyFile(id: int)
    ensures Readable("") && FindId(RecordsIn(""), id) == None
  {
  }

  /** What the outcome of the dedup check says about the key. */
  lemma KnownKey(d: Disk, key: string, result: DedupResult, order: seq<AgentId>)
    requires result.Failed? <==> !RowKnows(d.rows, key) && SomeUnreadable(d.logs)
    requires result.Miss? ==> !RowKnows(d.rows, key) && !LogKnows(d.logs, key)
    requires result.Hit? ==>
               if RowKnows(d.rows, key) then IndexAnswer(d.rows, key, result.res)
               else Lists(order, d.logs) && ScanAnswer(order, d.logs, key, result.res)
    ensures result.Miss? ==> !KeyKnown(d, key)
    ensures result.Hit? ==> KeyKnown(d, key) && Answers(d, key, result.res)
  {
    hide Lists, SomeUnreadable, IndexAnswer, Hits, RowHasKey, LogHasKey;
    if result.Hit? && !RowKnows(d.rows, key) {
      var hits := Hits(order, d.logs, key);
      HitsSound(order, d.logs, key, 0);
      assert LogHasKey(d.logs, hits[0].0, hits[0].1, key) by { HitHasKey(d.logs, hits[0], key); }
    }
  }

  lemma HitHasKey(logs: Files, h: (AgentId, Record), key: string)
    requires h.1 in RecordsOf(logs, h.0) && h.1.dedup == Some(key)
    ensures LogHasKey(logs, h.0, h.1, key)
  {
  }

  lemma AllReadableAfter(logs: Files)
    requires forall a :: a in logs ==> Readable(logs[a])
    ensures forall a :: a in TruncateAll(logs) ==> Readable(TruncateAll(logs)[a])
  {
    hide ParseAll, Truncated;
    forall a | a in logs ensures Readable(Truncated(logs[a])) {
      TruncatedIsSettled(logs[a]);
    }
  }
}
