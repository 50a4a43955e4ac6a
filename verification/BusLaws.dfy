/** What the bus operations amount to: a send appends one record per recipient and nothing else,
    every operation is a run of the protocol, recovery is idempotent, and a repeated key is answered
    from the original send. */
module BusLaws {
  import opened Text
  import opened Codec
  import opened CodecLaws
  import opened Storage
  import opened StorageLaws
  import opened Compaction
  import opened Protocol
  import opened Runs
  import opened KeyedSends
  import opened Dedup
  import opened IndexCoverage
  import opened RegistryLog
  import opened RegistryLaws
  import opened Sorting
  import opened Bus

  // ---- What a send appends ----

  /** The record a send appends for one recipient. */
  function Addressed(d: Disk, job: Job, id: nat, a: AgentId): Record {
    RecordFor(job, id, a, SeqOf(d.seqs, a) + 1)
  }

  /** b is served by the rest of a send as it would have been before a was. */
  lemma ServedElsewhere(d: Disk, job: Job, id: nat, a: AgentId, b: AgentId)
    requires a != b
    ensures var e := DeliverTo(d, job, id, a);
            FileOf(e.logs, b) == FileOf(d.logs, b) && SeqOf(e.seqs, b) == SeqOf(d.seqs, b)
  {
    hide Encoding, InsertOrReplace;
  }

  lemma ServedHere(d: Disk, job: Job, id: nat, a: AgentId)
    requires WellFormed(Addressed(d, job, id, a)) && Settled(FileOf(d.logs, a))
    ensures var e := DeliverTo(d, job, id, a);
            && RecordsOf(e.logs, a) == RecordsOf(d.logs, a) + [Addressed(d, job, id, a)]
            && SeqOf(e.seqs, a) == SeqOf(d.seqs, a) + 1
  {
    hide Encoding, InsertOrReplace, WellFormed, Settled, RecordsIn;
    AppendView(d.logs, a, Addressed(d, job, id, a), DeliverTo(d, job, id, a).logs);
  }

  lemma TailOk(rs: seq<AgentId>)
    requires RecipientsOk(rs) && rs != []
    ensures RecipientsOk(rs[1..]) && rs[0] !in rs[1..] && forall a :: a in rs <==> a == rs[0] || a in rs[1..]
  {
    assert rs == [rs[0]] + rs[1..];
  }

  ghost predicate OneMore(d: Disk, e: Disk, job: Job, id: nat, a: AgentId) {
    && RecordsOf(e.logs, a) == RecordsOf(d.logs, a) + [Addressed(d, job, id, a)]
    && SeqOf(e.seqs, a) == SeqOf(d.seqs, a) + 1
  }

  ghost predicate SameMailbox(d: Disk, e: Disk, a: AgentId) {
    FileOf(e.logs, a) == FileOf(d.logs, a) && SeqOf(e.seqs, a) == SeqOf(d.seqs, a)
  }

  lemma OneMoreFirst(d: Disk, job: Job, id: nat, rs: seq<AgentId>)
    requires JobOk(job) && RecipientsOk(rs) && rs != [] && Settled(FileOf(d.logs, rs[0]))
    ensures OneMore(d, DeliverAll(d, job, id, rs), job, id, rs[0])
  {
    var a := rs[0];
    TailOk(rs);
    AddressedIsWellFormed(d, job, id, a, rs);
    Unfold(d, job, id, rs);
    hide DeliverAll, DeliverTo, RecordsOf, Settled, FileOf, SeqOf, JobOk, RecipientsOk, WellFormed, Addressed;
    var d' := DeliverTo(d, job, id, a);
    ServedHere(d, job, id, a);
    OthersKeepTheirs(d', job, id, rs[1..], a);
    SameRecordsOf(DeliverAll(d', job, id, rs[1..]).logs, d'.logs, a);
  }

  lemma OneMoreLater(d: Disk, d': Disk, e: Disk, job: Job, id: nat, a: AgentId)
    requires SameMailbox(d, d', a)
    ensures OneMore(d', e, job, id, a) ==> OneMore(d, e, job, id, a)
    ensures SameMailbox(d', e, a) ==> SameMailbox(d, e, a)
  {
    hide FileOf, SeqOf, RecordsIn;
  }

  /** Serving the recipients appends exactly one record to each of their logs, carrying the message
      under the given id and the next seq of that mailbox; every other mailbox keeps its log and
      its seq. */
  lemma {:induction false} OneRecordEach(d: Disk, job: Job, id: nat, rs: seq<AgentId>, a: AgentId)
    requires JobOk(job) && RecipientsOk(rs) && Settled(FileOf(d.logs, a))
    ensures var e := DeliverAll(d, job, id, rs);
            if a in rs then OneMore(d, e, job, id, a) else SameMailbox(d, e, a)
    decreases rs
  {
    hide DeliverTo, Settled, JobOk, RecipientsOk, OneMore;
    if rs == [] {
    } else {
      TailOk(rs);
      Unfold(d, job, id, rs);
      hide DeliverAll;
      if a == rs[0] {
        OneMoreFirst(d, job, id, rs);
      } else {
        var d' := DeliverTo(d, job, id, rs[0]);
        ServedElsewhere(d, job, id, rs[0], a);
        OneRecordEach(d', job, id, rs[1..], a);
        OneMoreLater(d, d', DeliverAll(d', job, id, rs[1..]), job, id, a);
      }
    }
  }

  lemma SameRecordsOf(f: Files, g: Files, a: AgentId)
    requires FileOf(f, a) == FileOf(g, a)
    ensures RecordsOf(f, a) == RecordsOf(g, a)
  {
    hide FileOf, RecordsIn;
  }

  lemma AddressedIsWellFormed(d: Disk, job: Job, id: nat, a: AgentId, rs: seq<AgentId>)
    requires JobOk(job) && RecipientsOk(rs) && rs != [] && rs[0] == a
    ensures WellFormed(Addressed(d, job, id, a))
  {
    hide IsTimestamp;
  }

  lemma {:induction false} CountersKept(d: Disk, job: Job, id: nat, rs: seq<AgentId>)
    ensures DeliverAll(d, job, id, rs).counter == d.counter && DeliverAll(d, job, id, rs).archives == d.archives
    decreases rs
  {
    hide Encoding, InsertOrReplace, FileOf, SeqOf;
    if rs != [] {
      CountersKept(DeliverTo(d, job, id, rs[0]), job, id, rs[1..]);
    }
  }

  /** The returned list names, in delivery order, every recipient with the seq of its record. */
  lemma {:induction false} DeliveredInOrder(d: Disk, job: Job, id: nat, rs: seq<AgentId>, i: nat)
    requires RecipientsOk(rs)
    ensures |DeliveriesOf(d, job, id, rs)| == |rs|
    ensures i < |rs| ==> DeliveriesOf(d, job, id, rs)[i] == Delivery(rs[i], SeqOf(d.seqs, rs[i]) + 1)
    decreases rs
  {
    hide SeqOf, DeliverTo;
    if rs != [] {
      var j := if i == 0 then 0 else i - 1;
      DeliveredInOrder(DeliverTo(d, job, id, rs[0]), job, id, rs[1..], j);
      if 0 < i < |rs| {
        ServedElsewhere(d, job, id, rs[0], rs[i]);
      }
    }
  }

  /** A send takes the next id and appends exactly one record with it to each recipient's log. */
  lemma SendAppendsOneEach(d: Disk, job: Job, rs: seq<AgentId>, a: AgentId)
    requires JobOk(job) && RecipientsOk(rs) && Settled(FileOf(d.logs, a))
    ensures var e := AfterSend(d, job, rs);
            && e.counter == d.counter + 1 && e.archives == d.archives
            && RecordsOf(e.logs, a)
               == RecordsOf(d.logs, a) + if a in rs then [RecordFor(job, d.counter + 1, a, SeqOf(d.seqs, a) + 1)] else []
    ensures a in rs ==> Delivery(a, SeqOf(d.seqs, a) + 1) in ResultOf(d, job, rs).delivered
  {
    hide DeliverAll, DeliveriesOf, Settled, RecordsIn, SeqOf;
    var d' := d.(counter := d.counter + 1);
    OneRecordEach(d', job, d.counter + 1, rs, a);
    CountersKept(d', job, d.counter + 1, rs);
    SameRecordsOf(d.logs, d'.logs, a);
    if a !in rs {
      SameRecordsOf(AfterSend(d, job, rs).logs, d.logs, a);
    }
    if a in rs {
      var i :| 0 <= i < |rs| && rs[i] == a;
      DeliveredInOrder(d', job, d.counter + 1, rs, i);
      assert DeliveriesOf(d', job, d.counter + 1, rs)[i] == Delivery(a, SeqOf(d.seqs, a) + 1);
    }
  }

  /** A reply that is not answered from its key appends exactly one record: in the mailbox of the
      cited record's sender, of kind "reply", citing the id; every other log is untouched. */
  lemma ReplyAppendsOne(d: Disk, agents: Agents, sender: Agent, body: Bytes, cited: Record, id: int, now: string,
                        dedupId: string, mailbox: AgentId, r: R.Result<SendResult>, after: Disk, a: AgentId)
    requires var job := JobOf(sender, "reply", body, Some(id), now, dedupId);
             && JobOk(job) && Replied(d, agents, job, mailbox, id, r, after)
             && (job.key.Some? ==> !KeyKnown(d, job.key.value))
    requires Readable(FileOf(d.logs, mailbox)) && Readable(FileOf(d.archives, mailbox))
    requires Lookup(Pair(FileOf(d.logs, mailbox), FileOf(d.archives, mailbox)), id) == Some(cited)
    requires cited.from != "" && OneLine(cited.from) && r.Ok? && Settled(FileOf(d.logs, a))
    ensures r.value == SendResult(d.counter + 1, [Delivery(cited.from, SeqOf(d.seqs, cited.from) + 1)])
    ensures after.counter == d.counter + 1
    ensures a != cited.from ==> RecordsOf(after.logs, a) == RecordsOf(d.logs, a)
    ensures a == cited.from ==>
              && |RecordsOf(after.logs, a)| == |RecordsOf(d.logs, a)| + 1
              && RecordsOf(after.logs, a)[..|RecordsOf(d.logs, a)|] == RecordsOf(d.logs, a)
              && var rec := RecordsOf(after.logs, a)[|RecordsOf(d.logs, a)|];
                 rec.kind == "reply" && rec.inReplyTo == Some(id) && rec.from == sender.agentId && rec.body == body
                 && rec.to == cited.from && rec.id == r.value.id
  {
    hide Sent, KeyKnown, AfterSend, ResultOf, JobOk, RecordsOf, Settled, SeqOf, FileOf, OneLine, StoredKey, KeyOf, Readable,
      Lookup, LookupOutcome, Replied;
    var job := JobOf(sender, "reply", body, Some(id), now, dedupId);
    ReplyIsSend(d, agents, job, mailbox, id, cited, r, after);
    SentToOne(d, agents, job, cited.from, r, after);
    OneRecipient(d, job, cited.from, a);
    var rec := RecordFor(job, d.counter + 1, a, SeqOf(d.seqs, a) + 1);
    assert rec.kind == "reply" && rec.inReplyTo == Some(id) && rec.from == sender.agentId && rec.body == body && rec.to == a;
  }

  /** A reply that succeeds without being answered from its key is a send to the cited record's sender. */
  lemma ReplyIsSend(d: Disk, agents: Agents, job: Job, mailbox: AgentId, id: int, cited: Record, r: R.Result<SendResult>,
                    after: Disk)
    requires Replied(d, agents, job, mailbox, id, r, after) && r.Ok? && (job.key.Some? ==> !KeyKnown(d, job.key.value))
    requires Readable(FileOf(d.logs, mailbox)) && Readable(FileOf(d.archives, mailbox))
    requires Lookup(Pair(FileOf(d.logs, mailbox), FileOf(d.archives, mailbox)), id) == Some(cited)
    ensures Sent(d, agents, job, cited.from, "", r, after)
  {
    hide Sent, KeyKnown, RowKnows, SomeUnreadable, Answers, Readable, Lookup, LookupOutcome, FileOf;
    LookupOutcomeIsLookup(FileOf(d.logs, mailbox), FileOf(d.archives, mailbox), id);
  }

  lemma OneRecipient(d: Disk, job: Job, to: AgentId, a: AgentId)
    requires JobOk(job) && OneLine(to) && Settled(FileOf(d.logs, a))
    ensures ResultOf(d, job, [to]) == SendResult(d.counter + 1, [Delivery(to, SeqOf(d.seqs, to) + 1)])
    ensures AfterSend(d, job, [to]).counter == d.counter + 1
    ensures RecordsOf(AfterSend(d, job, [to]).logs, a)
            == RecordsOf(d.logs, a) + (if a == to then [RecordFor(job, d.counter + 1, a, SeqOf(d.seqs, a) + 1)] else [])
  {
    assert RecipientsOk([to]);
    SingleRow(d, job, to);
    hide JobOk, RecordsOf, Settled, SeqOf, AfterSend, FileOf, RecipientsOk, OneLine, ResultOf;
    SendAppendsOneEach(d, job, [to], a);
  }

  lemma SentToOne(d: Disk, agents: Agents, job: Job, to: AgentId, r: R.Result<SendResult>, after: Disk)
    requires Sent(d, agents, job, to, "", r, after) && (job.key.Some? ==> !KeyKnown(d, job.key.value))
    requires to != "" && r.Ok?
    ensures r == R.Ok(ResultOf(d, job, [to])) && after == AfterSend(d, job, [to])
  {
    hide KeyKnown, RowKnows, SomeUnreadable, Answers, AfterSend, ResultOf, IsExpansion, IsAlive;
  }

  // ---- Repeating a key ----

  /** After a keyed send the index knows the key, and only rows of that send carry it. */
  lemma {:induction false} RowsAfterKeyedSend(d: Disk, job: Job, id: nat, rs: seq<AgentId>)
    requires job.key.Some? && (rs == [] ==> RowKnows(d.rows, job.key.value))
    requires forall n :: RowHasKey(d.rows, n, job.key.value) ==> d.rows[n].id == id
    requires UniqueKeys(d.rows)
    ensures var e := DeliverAll(d, job, id, rs);
            && RowKnows(e.rows, job.key.value) && UniqueKeys(e.rows)
            && forall n :: RowHasKey(e.rows, n, job.key.value) ==> e.rows[n].id == id
    decreases rs
  {
    if rs != [] {
      Unfold(d, job, id, rs);
      var e := DeliverTo(d, job, id, rs[0]);
      RowOfServed(d, job, id, rs[0]);
      hide DeliverTo, UniqueKeys, DeliverAll;
      RowsAfterKeyedSend(e, job, id, rs[1..]);
    }
  }

  lemma RowOfServed(d: Disk, job: Job, id: nat, a: AgentId)
    requires job.key.Some? && UniqueKeys(d.rows)
    requires forall n :: RowHasKey(d.rows, n, job.key.value) ==> d.rows[n].id == id
    ensures var e := DeliverTo(d, job, id, a);
            && RowKnows(e.rows, job.key.value) && UniqueKeys(e.rows)
            && forall n :: RowHasKey(e.rows, n, job.key.value) ==> e.rows[n].id == id
  {
    hide Encoding, FileOf;
    var e := DeliverTo(d, job, id, a);
    assert RowHasKey(e.rows, (a, SeqOf(d.seqs, a) + 1), job.key.value);
  }

  /** A retry of a keyed send, by anybody and with whatever message and recipients, returns the
      original id and writes nothing, whatever the key looks like. */
  lemma RetryIsAnswered(d: Disk, job: Job, rs: seq<AgentId>, agents: Agents, again: Job, toAgent: string, toRole: string,
                        r: R.Result<SendResult>, after: Disk)
    requires job.key.Some? && again.key == job.key && rs != [] && UniqueKeys(d.rows) && !KeyKnown(d, job.key.value)
    requires Sent(AfterSend(d, job, rs), agents, again, toAgent, toRole, r, after)
    ensures after == AfterSend(d, job, rs)
    ensures r.Ok? && r.value.id == ResultOf(d, job, rs).id
    ensures |rs| == 1 ==> r.value == ResultOf(d, job, rs)
  {
    hide Sent, AfterSend, KeyKnown, IndexAnswer, RowHasKey, ResultOf, UniqueKeys;
    var key := job.key.value;
    var e := AfterSend(d, job, rs);
    KeyedSendRows(d, job, rs);
    RetryAnswer(e, agents, again, toAgent, toRole, r, after);
    AnswerId(e.rows, key, r.value, ResultOf(d, job, rs).id);
    if |rs| == 1 {
      assert rs == [rs[0]];
      SingleRow(d, job, rs[0]);
      UniqueAnswer(e.rows, key, r.value, (rs[0], SeqOf(d.seqs, rs[0]) + 1));
    }
  }

  /** After a keyed send on a disk that does not know the key, its rows are those of the send. */
  lemma KeyedSendRows(d: Disk, job: Job, rs: seq<AgentId>)
    requires job.key.Some? && rs != [] && UniqueKeys(d.rows) && !KeyKnown(d, job.key.value)
    ensures var e := AfterSend(d, job, rs);
            && RowKnows(e.rows, job.key.value) && UniqueKeys(e.rows)
            && forall n :: RowHasKey(e.rows, n, job.key.value) ==> e.rows[n].id == ResultOf(d, job, rs).id
  {
    hide DeliverAll, UniqueKeys, RowHasKey, DeliveriesOf, LogHasKey;
    RowsAfterKeyedSend(d.(counter := d.counter + 1), job, d.counter + 1, rs);
  }

  lemma AnswerId(rows: Table, key: string, res: SendResult, id: int)
    requires IndexAnswer(rows, key, res) && forall n :: RowHasKey(rows, n, key) ==> rows[n].id == id
    ensures res.id == id
  {
    hide ByAgent;
  }

  lemma RetryAnswer(e: Disk, agents: Agents, again: Job, toAgent: string, toRole: string, r: R.Result<SendResult>,
                    after: Disk)
    requires again.key.Some? && RowKnows(e.rows, again.key.value) && Sent(e, agents, again, toAgent, toRole, r, after)
    ensures after == e && r.Ok? && IndexAnswer(e.rows, again.key.value, r.value)
  {
    hide IndexAnswer, ScanAnswer, RowHasKey, LogHasKey, Expands;
  }

  lemma SingleRow(d: Disk, job: Job, a: AgentId)
    ensures job.key.Some? ==> RowHasKey(AfterSend(d, job, [a]).rows, (a, SeqOf(d.seqs, a) + 1), job.key.value)
    ensures (a, SeqOf(d.seqs, a) + 1) in AfterSend(d, job, [a]).rows
    ensures AfterSend(d, job, [a]).rows[(a, SeqOf(d.seqs, a) + 1)].id == d.counter + 1
    ensures ResultOf(d, job, [a]) == SendResult(d.counter + 1, [Delivery(a, SeqOf(d.seqs, a) + 1)])
  {
    hide Encoding, FileOf, AppendTo, DeliverAll, DeliveriesOf;
    var d' := d.(counter := d.counter + 1);
    assert [a][1..] == [];
    Unfold(d', job, d.counter + 1, [a]);
    UnfoldDeliveries(d', job, d.counter + 1, [a]);
    NothingLeft(DeliverTo(d', job, d.counter + 1, a), job, d.counter + 1, []);
  }

  // ---- Operations are runs of the protocol ----

  lemma ExpandedAreOk(log: Bytes, toAgent: string, toRole: string, rs: seq<AgentId>)
    requires Expands(AgentsOf(log), toAgent, toRole, rs)
    ensures RecipientsOk(rs)
  {
    AgentsArePlain(log);
    hide AgentsOf, StrLe;
    forall i | 0 <= i < |rs| ensures OneLine(rs[i]) {
      assert rs[i] in rs;
    }
  }

  /** Any completed send of the bus is either a run of the protocol from the state it started in,
      which ends with the lock free, exactly its disk and a receipt for exactly its result, or it
      changes nothing. */
  lemma SendRefinesProtocol(s: State, pid: nat, log: Bytes, job: Job, toAgent: string, toRole: string,
                            r: R.Result<SendResult>, after: Disk)
    returns (steps: seq<Step>)
    requires s.lock.Free? && !s.down && JobOk(job)
    requires Sent(s.disk, AgentsOf(log), job, toAgent, toRole, r, after)
    ensures Legal(s, steps) && Run(s, steps).disk == after && Run(s, steps).lock.Free? && !Run(s, steps).down
    ensures r.Ok? && after != s.disk ==> Receipt(job, r.value) in Run(s, steps).receipts
  {
    if after == s.disk {
      steps := [];
    } else {
      var rs := SentTo(s.disk, AgentsOf(log), job, toAgent, toRole, r, after);
      ExpandedAreOk(log, toAgent, toRole, rs);
      hide AgentsOf, Sent, Expands, JobOk, RecipientsOk, KeyKnown, AfterSend, ResultOf, Enabled, Apply;
      steps := SendSteps(pid, job, rs);
      SendIsRun(s, pid, job, rs);
    }
  }

  lemma SentTo(d: Disk, agents: Agents, job: Job, toAgent: string, toRole: string, r: R.Result<SendResult>, after: Disk)
    returns (rs: seq<AgentId>)
    requires Sent(d, agents, job, toAgent, toRole, r, after) && after != d
    ensures Expands(agents, toAgent, toRole, rs) && rs != []
    ensures r == R.Ok(ResultOf(d, job, rs)) && after == AfterSend(d, job, rs)
    ensures job.key.Some? ==> !KeyKnown(d, job.key.value)
  {
    hide Answers, KeyKnown, RowKnows, SomeUnreadable, Expands, AfterSend, ResultOf;
    rs :| Expands(agents, toAgent, toRole, rs) && rs != []
          && r == R.Ok(ResultOf(d, job, rs)) && after == AfterSend(d, job, rs);
  }

  /** A compaction that cuts something off archives it and rewrites the log; any other does nothing. */
  function CompactSteps(d: Disk, pid: nat, a: AgentId, upTo: int): seq<Step> {
    var c := CompactPoint(FileOf(d.logs, a), upTo);
    if c.CutAt? && c.boundary > 0 then [ArchivePrefix(pid, a, upTo), RewriteLog] else []
  }

  /** A completed compaction is the protocol's archive step followed by its rewrite step, or no step when
      nothing is cut off. */
  lemma CompactRefinesProtocol(s: State, pid: nat, a: AgentId, upTo: int)
    requires s.lock.Free? && !s.down
    ensures Legal(s, CompactSteps(s.disk, pid, a, upTo))
    ensures Run(s, CompactSteps(s.disk, pid, a, upTo)) == s.(disk := AfterCompact(s.disk, a, upTo))
  {
    hide CompactPoint;
    if CanArchive(s, a, upTo) {
      var t := DoArchive(s, pid, a, upTo);
      var u := DoRewrite(t);
      assert Legal(u, []) && Run(u, []) == u;
      assert [RewriteLog] + [] == [RewriteLog];
      Prepend(t, RewriteLog, []);
      Prepend(s, ArchivePrefix(pid, a, upTo), [RewriteLog]);
      assert [ArchivePrefix(pid, a, upTo)] + [RewriteLog] == [ArchivePrefix(pid, a, upTo), RewriteLog];
    }
  }

  // ---- Recovery as a run ----

  function TruncateListed(logs: Files, order: seq<AgentId>): Files
    decreases order
  {
    if order == [] then logs else TruncateListed(logs[order[0] := Truncated(FileOf(logs, order[0]))], order[1..])
  }

  lemma {:induction false} TruncateListedAt(logs: Files, order: seq<AgentId>, a: AgentId)
    requires (forall b :: b in order ==> b in logs) && forall i, j :: 0 <= i < j < |order| ==> order[i] != order[j]
    ensures TruncateListed(logs, order).Keys == logs.Keys
    ensures a in logs ==> TruncateListed(logs, order)[a] == if a in order then Truncated(logs[a]) else logs[a]
    decreases order
  {
    hide Truncated;
    if order != [] {
      assert order == [order[0]] + order[1..];
      TruncateListedAt(logs[order[0] := Truncated(FileOf(logs, order[0]))], order[1..], a);
    }
  }

  lemma TruncateListedIsAll(logs: Files, order: seq<AgentId>)
    requires Lists(order, logs)
    ensures TruncateListed(logs, order) == TruncateAll(logs)
  {
    hide Truncated, TruncateListed;
    var t := TruncateListed(logs, order);
    TruncateListedAt(logs, order, "");
    forall a | a in logs ensures t[a] == Truncated(logs[a]) {
      TruncateListedAt(logs, order, a);
    }
  }

  function TruncateSteps(n: nat): seq<Step> {
    if n == 0 then [] else [TruncateTail] + TruncateSteps(n - 1)
  }

  lemma {:induction false} TruncateRun(s: State)
    requires s.lock.Held? && s.lock.pc.Recovering?
    ensures var steps := TruncateSteps(|s.lock.pc.untouched|);
            && Legal(s, steps)
            && Run(s, steps) == s.(disk := s.disk.(logs := TruncateListed(s.disk.logs, s.lock.pc.untouched)),
                                   lock := Held(s.lock.pid, Recovering([])))
    decreases s.lock.pc.untouched
  {
    hide Truncated;
    var todo := s.lock.pc.untouched;
    if todo == [] {
      assert Run(s, []) == s;
    } else {
      var t := DoTruncate(s);
      TruncateRun(t);
      Prepend(s, TruncateTail, TruncateSteps(|todo| - 1));
    }
  }

  function RecoverySteps(pid: nat, order: seq<AgentId>, counted: seq<AgentId>, indexed: seq<AgentId>): seq<Step> {
    [BeginOpen(pid, order)] + (TruncateSteps(|order|) + [WriteCounter(counted), RebuildIndex(indexed)])
  }

  lemma LastTwo(s: State, counted: seq<AgentId>, indexed: seq<AgentId>)
    requires CanWriteCounter(s, counted) && Lists(indexed, s.disk.logs)
    ensures var steps := [WriteCounter(counted), RebuildIndex(indexed)];
            && Legal(s, steps)
            && Run(s, steps) == DoRebuild(DoWriteCounter(s, counted), indexed)
  {
    hide Lists, MaxIdOver, InsertSeq, Entries;
    var t := DoWriteCounter(s, counted);
    var u := DoRebuild(t, indexed);
    assert Legal(u, []) && Run(u, []) == u;
    assert [RebuildIndex(indexed)] + [] == [RebuildIndex(indexed)];
    Prepend(t, RebuildIndex(indexed), []);
    Prepend(s, WriteCounter(counted), [RebuildIndex(indexed)]);
    assert [WriteCounter(counted)] + [RebuildIndex(indexed)] == [WriteCounter(counted), RebuildIndex(indexed)];
  }

  /** Recovery, in whatever orders it visits the logs, is the protocol's Open: after it the lock is
      free, no power loss is outstanding, and the disk is the recovered one. */
  lemma RecoverRefinesProtocol(s: State, pid: nat, order: seq<AgentId>, counted: seq<AgentId>, indexed: seq<AgentId>)
    requires s.lock.Free?
    requires Lists(order, s.disk.logs) && Lists(counted, s.disk.logs) && Lists(indexed, s.disk.logs)
    ensures var steps := RecoverySteps(pid, order, counted, indexed);
            && Legal(s, steps)
            && Run(s, steps) == s.(disk := AfterRecover(s.disk, counted, indexed), down := false)
  {
    hide TruncateListed, TruncateSteps, MaxIdOver, InsertSeq, Entries;
    var t := s.(lock := Held(pid, Recovering(order)));
    var u := t.(disk := s.disk.(logs := TruncateAll(s.disk.logs)), lock := Held(pid, Recovering([])));
    TruncateRun(t);
    TruncateListedIsAll(s.disk.logs, order);
    hide TruncateAll;
    assert u.disk.logs.Keys == s.disk.logs.Keys by { SameKeys(s.disk.logs); }
    LastTwo(u, counted, indexed);
    var steps := TruncateSteps(|order|);
    var last := [WriteCounter(counted), RebuildIndex(indexed)];
    RunConcat(t, steps, last);
    Prepend(s, BeginOpen(pid, order), steps + last);
  }

  lemma SameKeys(logs: Files)
    ensures TruncateAll(logs).Keys == logs.Keys
  {
  }

  // ---- Recovery is idempotent ----

  /** The largest id does not depend on the order in which the logs are visited. */
  lemma MaxIdAnyOrder(xs: seq<AgentId>, ys: seq<AgentId>, logs: Files)
    requires Lists(xs, logs) && Lists(ys, logs)
    ensures MaxIdOver(xs, logs) == MaxIdOver(ys, logs)
  {
    hide RecordsOf, MaxIdOver;
    MaxIdOverBounds(xs, logs);
    MaxIdOverBounds(ys, logs);
  }

  /** Recovering again changes neither the logs nor the counter, nor which records the index is
      built from; with no key held by two rows it rebuilds the same table as well. */
  lemma RecoverTwice(d: Disk, counted: seq<AgentId>, indexed: seq<AgentId>, counted': seq<AgentId>, indexed': seq<AgentId>)
    requires !SomeUnreadable(d.logs)
    requires Lists(counted, d.logs) && Lists(indexed, d.logs) && Lists(counted', d.logs) && Lists(indexed', d.logs)
    ensures var e := AfterRecover(d, counted, indexed);
            && AfterRecover(e, counted', indexed') == e.(rows := InsertSeq(Entries(indexed', e.logs)))
            && AfterRecover(e, counted', indexed) == e
  {
    hide InsertSeq, Entries, MaxIdOver, Truncated;
    var logs := TruncateAll(d.logs);
    forall a | a in d.logs ensures Truncated(Truncated(d.logs[a])) == Truncated(d.logs[a]) {
      assert Readable(d.logs[a]);
      TruncatedTwice(d.logs[a]);
    }
    assert TruncateAll(logs) == logs;
    MaxIdAnyOrder(counted, counted', logs);
  }

  lemma TruncatedTwice(log: Bytes)
    requires Readable(log)
    ensures Truncated(Truncated(log)) == Truncated(log)
  {
    hide ParseAll;
    TruncatedIsSettled(log);
  }
}
