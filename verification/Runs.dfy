/** Whole runs: what holds in every reachable state, and that nothing accepted is ever lost. */
module Runs {
  import opened Codec
  import opened CodecLaws
  import opened Storage
  import opened StorageLaws
  import opened Compaction
  import opened Protocol
  import opened Invariant
  import opened Preservation

  lemma {:induction false} RunKeeps(s: State, steps: seq<Step>)
    requires Inv(s) && Legal(s, steps)
    ensures Inv(Run(s, steps))
    decreases steps
  {
    hide Inv, Enabled, Apply;
    if steps != [] {
      StepKeeps(s, steps[0]);
      RunKeeps(Apply(s, steps[0]), steps[1..]);
    }
  }

  lemma ReachableInv(s: State)
    requires Reachable(s)
    ensures Inv(s)
  {
    hide Inv;
    InitOk();
    var steps :| Legal(INIT, steps) && Run(INIT, steps) == s;
    RunKeeps(INIT, steps);
  }

  /** In every reachable state, whatever was interleaved, killed, torn or recovered: live logs
      ascend in seq and id, every stored seq is within its counter, every live id is within the
      id counter, every record sits in its recipient's files, and unless a power loss is still
      unrecovered every log ends on a record boundary. */
  lemma DiskIsSound(s: State)
    requires Reachable(s)
    ensures forall a :: Ascending(RecordsOf(s.disk.logs, a))
    ensures forall a, r :: r in RecordsOf(s.disk.logs, a) ==> r.to == a && 1 <= r.id <= s.disk.counter
    ensures forall a, r :: r in RecordsOf(s.disk.logs, a) || r in RecordsOf(s.disk.archives, a) ==>
              1 <= r.seqNo <= SeqOf(s.disk.seqs, a)
    ensures !s.down ==> forall a :: Settled(FileOf(s.disk.logs, a))
    ensures forall a :: Readable(FileOf(s.disk.logs, a)) && Settled(FileOf(s.disk.archives, a))
  {
    hide Inv, FilesOk, HistOk, LiveOk, SendsOk, RowsOk, ReceiptsOk, PcOk, RecordsOf, FileOf, Ascending, Settled, Readable,
      SeqOf, Reachable;
    ReachableInv(s);
    InvParts(s);
    FileFacts(s);
    forall a, r | r in RecordsOf(s.disk.logs, a) || r in RecordsOf(s.disk.archives, a)
      ensures 1 <= r.seqNo <= SeqOf(s.disk.seqs, a) && r.to == a
    {
      StoredFacts(s, a, r);
    }
    forall a, r | r in RecordsOf(s.disk.logs, a) ensures 1 <= r.id <= s.disk.counter {
      LiveIdFacts(s, a, r);
    }
  }

  lemma FileFacts(s: State)
    requires FilesOk(s) && LiveOk(s)
    ensures forall a :: Ascending(RecordsOf(s.disk.logs, a))
    ensures !s.down ==> forall a :: Settled(FileOf(s.disk.logs, a))
    ensures forall a :: Readable(FileOf(s.disk.logs, a)) && Settled(FileOf(s.disk.archives, a))
  {
    hide RecordsOf, Ascending, Settled, Readable, FileOf, IdsBounded, IdsShared, KeysShared;
  }

  lemma StoredFacts(s: State, a: AgentId, r: Record)
    requires HistOk(s) && (r in RecordsOf(s.disk.logs, a) || r in RecordsOf(s.disk.archives, a))
    ensures 1 <= r.seqNo <= SeqOf(s.disk.seqs, a) && r.to == a
  {
    hide RecordsOf, SeqOf, Kept, WellFormed;
  }

  lemma LiveIdFacts(s: State, a: AgentId, r: Record)
    requires HistOk(s) && LiveOk(s) && r in RecordsOf(s.disk.logs, a)
    ensures 1 <= r.id <= s.disk.counter
  {
    hide RecordsOf, Kept, NamesOk, Ascends, IdsShared, KeysShared;
    assert In(s.disk.logs, s.hist, (a, r.seqNo));
  }

  /** Two live records share an id, or a dedup key, only if one send wrote both. */
  lemma SharingMeansOneSend(s: State, a: AgentId, r: Record, b: AgentId, q: Record)
    requires Reachable(s)
    requires r in RecordsOf(s.disk.logs, a) && q in RecordsOf(s.disk.logs, b)
    requires r.id == q.id || SameKey(r, q)
    ensures (a, r.seqNo) in s.hist && (b, q.seqNo) in s.hist
    ensures s.hist[(a, r.seqNo)].send == s.hist[(b, q.seqNo)].send
    ensures r.id == q.id && r.dedup == q.dedup && (a == b ==> r == q)
  {
    ReachableInv(s);
    hide RecordsOf, FilesOk, RowsOk, ReceiptsOk, PcOk, Ascends, IdsBounded, NamesOk, Kept;
    assert HistOk(s) && LiveOk(s) && SendsOk(s);
    assert In(s.disk.logs, s.hist, (a, r.seqNo)) && In(s.disk.logs, s.hist, (b, q.seqNo));
  }

  // ---- No loss ----

  /** History and receipts only grow; in particular a (mailbox, seq) name is never given twice. */
  ghost predicate Extends(s: State, t: State) {
    && (forall n :: n in s.hist ==> n in t.hist && t.hist[n] == s.hist[n])
    && s.receipts <= t.receipts
    && (forall a :: SeqOf(s.disk.seqs, a) <= SeqOf(t.disk.seqs, a))
  }

  /** Apart from taking an id, appending a record and recovering the counter, no step touches the
      history or the id counter, or starts a send. */
  lemma QuietStep(s: State, st: Step)
    requires Enabled(s, st) && !st.BeginSend? && !st.AppendRecord? && !st.WriteCounter?
    ensures var t := Apply(s, st);
            && t.hist == s.hist && t.sends == s.sends && t.disk.counter == s.disk.counter
            && (t.lock.Held? && t.lock.pc.Sending? ==>
                  s.lock.Held? && s.lock.pc.Sending? && t.lock.pc.id == s.lock.pc.id && t.lock.pc.job == s.lock.pc.job)
  {
    hide JobOk, RecipientsOk, CanArchive, Lists, Encoding, InsertSeq, Entries, InsertOrReplace,
      CompactPoint, SeqOf, FileOf, Truncated, MaxIdOver;
  }

  lemma StepExtends(s: State, st: Step)
    requires Inv(s) && Enabled(s, st)
    ensures Extends(s, Apply(s, st))
  {
    hide FilesOk, HistOk, SendsOk, LiveOk, RowsOk, ReceiptsOk, JobOk, RecipientsOk, Own, Writes, CanBeginSend, Lists,
      DeliveredOk, Settled, Encoding, InsertSeq, InsertOrReplace, Entries, MaxIdOver, IsWritten, CompactPoint;
    match st
    case AppendRecord =>
      SendIsRecorded(s);
    case _ =>
  }

  lemma {:induction false} RunExtends(s: State, steps: seq<Step>)
    requires Inv(s) && Legal(s, steps)
    ensures Extends(s, Run(s, steps))
    decreases steps
  {
    hide Inv, Enabled, Apply, SeqOf;
    if steps != [] {
      StepKeeps(s, steps[0]);
      StepExtends(s, steps[0]);
      RunExtends(Apply(s, steps[0]), steps[1..]);
    }
  }

  /** Once a send has returned, each delivery it listed names a record with the returned id and the
      caller's message, and in every later state of the run that record is in the recipient's live
      log or archive, through kills, power losses, recoveries and compactions. */
  lemma NoAcceptedMessageIsLost(before: seq<Step>, after: seq<Step>, c: Receipt, i: nat)
    requires Legal(INIT, before) && Legal(Run(INIT, before), after)
    requires c in Run(INIT, before).receipts && i < |c.result.delivered|
    ensures var t := Run(Run(INIT, before), after);
            var d := c.result.delivered[i];
            var rec := RecordFor(c.job, c.result.id, d.agent, d.seqNo);
            rec in RecordsOf(t.disk.logs, d.agent) || rec in RecordsOf(t.disk.archives, d.agent)
  {
    hide Enabled, Apply, Run, RecordsOf, FilesOk, SendsOk, LiveOk, RowsOk, PcOk, Named, NamesOk;
    InitOk();
    var s := Run(INIT, before);
    RunKeeps(INIT, before);
    RunKeeps(s, after);
    RunExtends(s, after);
    var t := Run(s, after);
    assert ReceiptsOk(s);
    var d := c.result.delivered[i];
    var n := (d.agent, d.seqNo);
    assert n in s.hist && s.hist[n].rec == RecordFor(c.job, c.result.id, d.agent, d.seqNo);
    assert HistOk(t);
    assert In(t.disk.logs, t.hist, n) || In(t.disk.archives, t.hist, n);
  }

  // ---- A whole send ----

  /** The disk after the first |rs| recipients of a send have been served. */
  function DeliverTo(d: Disk, job: Job, id: nat, a: AgentId): Disk {
    var q := SeqOf(d.seqs, a) + 1;
    var rec := RecordFor(job, id, a, q);
    d.(seqs := d.seqs[a := q],
       logs := AppendTo(d.logs, a, Encoding(rec)),
       rows := InsertOrReplace(d.rows, (a, q), RowFor(job, id)))
  }

  function DeliverAll(d: Disk, job: Job, id: nat, rs: seq<AgentId>): Disk
    decreases rs
  {
    if rs == [] then d else DeliverAll(DeliverTo(d, job, id, rs[0]), job, id, rs[1..])
  }

  /** What an undisturbed send to the given recipients leaves on disk, and what it returns. */
  function AfterSend(d: Disk, job: Job, rs: seq<AgentId>): Disk {
    DeliverAll(d.(counter := d.counter + 1), job, d.counter + 1, rs)
  }

  function DeliveriesOf(d: Disk, job: Job, id: nat, rs: seq<AgentId>): seq<Delivery>
    decreases rs
  {
    if rs == [] then []
    else [Delivery(rs[0], SeqOf(d.seqs, rs[0]) + 1)] + DeliveriesOf(DeliverTo(d, job, id, rs[0]), job, id, rs[1..])
  }

  function ResultOf(d: Disk, job: Job, rs: seq<AgentId>): SendResult {
    SendResult(d.counter + 1, DeliveriesOf(d.(counter := d.counter + 1), job, d.counter + 1, rs))
  }

  function DeliverySteps(n: nat): seq<Step> {
    if n == 0 then [FinishSend] else [WriteSeq, AppendRecord, InsertRow] + DeliverySteps(n - 1)
  }

  ghost predicate ReadyToDeliver(s: State) {
    s.lock.Held? && s.lock.pc.Sending? && s.lock.pc.stage.Ready?
  }

  /** t is s after all pending recipients have been served and the send has returned. */
  ghost predicate Served(s: State, t: State)
    requires ReadyToDeliver(s)
  {
    var pc := s.lock.pc;
    && t.lock.Free? && t.down == s.down && t.sends == s.sends
    && t.disk == DeliverAll(s.disk, pc.job, pc.id, pc.todo)
    && t.receipts == s.receipts + {Receipt(pc.job,
         SendResult(pc.id, pc.delivered + DeliveriesOf(s.disk, pc.job, pc.id, pc.todo)))}
  }

  /** One recipient served. */
  lemma ServeOne(s: State) returns (s1: State, s2: State, s3: State)
    requires ReadyToDeliver(s) && s.lock.pc.todo != []
    ensures Enabled(s, WriteSeq) && s1 == Apply(s, WriteSeq)
    ensures Enabled(s1, AppendRecord) && s2 == Apply(s1, AppendRecord)
    ensures Enabled(s2, InsertRow) && s3 == Apply(s2, InsertRow)
    ensures ReadyToDeliver(s3) && s3.down == s.down && s3.sends == s.sends && s3.receipts == s.receipts
    ensures s3.disk == DeliverTo(s.disk, s.lock.pc.job, s.lock.pc.id, s.lock.pc.todo[0])
    ensures s3.lock.pc == s.lock.pc.(todo := s.lock.pc.todo[1..],
              delivered := s.lock.pc.delivered + [Delivery(s.lock.pc.todo[0], SeqOf(s.disk.seqs, s.lock.pc.todo[0]) + 1)])
  {
    hide Encoding, InsertOrReplace, SeqOf, FileOf;
    s1 := DoWriteSeq(s);
    s2 := DoAppend(s1);
    s3 := DoInsertRow(s2);
  }

  lemma ServedStep(s: State, s3: State, t: State)
    requires ReadyToDeliver(s) && s.lock.pc.todo != [] && ReadyToDeliver(s3) && Served(s3, t)
    requires s3.down == s.down && s3.sends == s.sends && s3.receipts == s.receipts
    requires s3.disk == DeliverTo(s.disk, s.lock.pc.job, s.lock.pc.id, s.lock.pc.todo[0])
    requires s3.lock.pc == s.lock.pc.(todo := s.lock.pc.todo[1..],
               delivered := s.lock.pc.delivered + [Delivery(s.lock.pc.todo[0], SeqOf(s.disk.seqs, s.lock.pc.todo[0]) + 1)])
    ensures Served(s, t)
  {
    hide DeliverTo, SeqOf;
    var pc := s.lock.pc;
    var d0 := Delivery(pc.todo[0], SeqOf(s.disk.seqs, pc.todo[0]) + 1);
    var ds := DeliveriesOf(s3.disk, pc.job, pc.id, pc.todo[1..]);
    assert (pc.delivered + [d0]) + ds == pc.delivered + ([d0] + ds);
  }

  lemma ServedAll(s: State)
    requires ReadyToDeliver(s) && s.lock.pc.todo == []
    ensures Legal(s, [FinishSend]) && Served(s, Run(s, [FinishSend]))
  {
    var t := DoFinishSend(s);
    assert Legal(t, []) && Run(t, []) == t;
    assert [FinishSend][1..] == [];
    assert s.lock.pc.delivered + [] == s.lock.pc.delivered;
  }

  lemma {:induction false} DeliveryRun(s: State)
    requires ReadyToDeliver(s)
    ensures Legal(s, DeliverySteps(|s.lock.pc.todo|))
    ensures Served(s, Run(s, DeliverySteps(|s.lock.pc.todo|)))
    decreases s.lock.pc.todo
  {
    hide Enabled, Apply, Run, Legal, Served;
    if s.lock.pc.todo == [] {
      ServedAll(s);
    } else {
      var s1, s2, s3 := ServeOne(s);
      DeliveryRun(s3);
      var rest := DeliverySteps(|s3.lock.pc.todo|);
      ThreeSteps(s, s1, s2, s3, rest);
      ServedStep(s, s3, Run(s3, rest));
    }
  }

  lemma ThreeSteps(s: State, s1: State, s2: State, s3: State, rest: seq<Step>)
    requires Enabled(s, WriteSeq) && s1 == Apply(s, WriteSeq)
    requires Enabled(s1, AppendRecord) && s2 == Apply(s1, AppendRecord)
    requires Enabled(s2, InsertRow) && s3 == Apply(s2, InsertRow)
    requires Legal(s3, rest)
    ensures Legal(s, [WriteSeq, AppendRecord, InsertRow] + rest)
    ensures Run(s, [WriteSeq, AppendRecord, InsertRow] + rest) == Run(s3, rest)
  {
    hide Enabled, Apply;
    Prepend(s2, InsertRow, rest);
    Prepend(s1, AppendRecord, [InsertRow] + rest);
    Prepend(s, WriteSeq, [AppendRecord] + ([InsertRow] + rest));
    assert [WriteSeq, AppendRecord, InsertRow] + rest == [WriteSeq] + ([AppendRecord] + ([InsertRow] + rest));
  }

  lemma Prepend(s: State, st: Step, rest: seq<Step>)
    requires Enabled(s, st) && Legal(Apply(s, st), rest)
    ensures Legal(s, [st] + rest) && Run(s, [st] + rest) == Run(Apply(s, st), rest)
  {
    hide Enabled, Apply;
    assert ([st] + rest)[1..] == rest;
  }

  function SendSteps(pid: nat, job: Job, rs: seq<AgentId>): seq<Step> {
    [BeginSend(pid, job, rs)] + DeliverySteps(|rs|)
  }

  /** An undisturbed send is a run of the machine: everything proved of runs holds of it. */
  lemma SendIsRun(s: State, pid: nat, job: Job, rs: seq<AgentId>)
    requires CanBeginSend(s, job, rs)
    ensures Legal(s, SendSteps(pid, job, rs))
    ensures var t := Run(s, SendSteps(pid, job, rs));
            && t.lock.Free? && !t.down && t.sends == s.sends + 1
            && t.disk == AfterSend(s.disk, job, rs)
            && t.receipts == s.receipts + {Receipt(job, ResultOf(s.disk, job, rs))}
  {
    var t := DoBeginSend(s, pid, job, rs);
    hide DeliverAll, DeliveriesOf, DeliverySteps, JobOk, RecipientsOk, KeyKnown;
    DeliveryRun(t);
    Prepend(s, BeginSend(pid, job, rs), DeliverySteps(|rs|));
    assert forall ds: seq<Delivery> :: [] + ds == ds;
  }

  // ---- What serving the remaining recipients leaves alone ----

  lemma {:induction false} OthersKeepTheirs(d: Disk, job: Job, id: nat, rs: seq<AgentId>, a: AgentId)
    requires a !in rs
    ensures var e := DeliverAll(d, job, id, rs);
            FileOf(e.logs, a) == FileOf(d.logs, a) && SeqOf(e.seqs, a) == SeqOf(d.seqs, a)
    decreases rs
  {
    hide Encoding, InsertOrReplace;
    if rs != [] {
      OthersKeepTheirs(DeliverTo(d, job, id, rs[0]), job, id, rs[1..], a);
    }
  }

  /** The first recipient's record is in its log under the newest seq of that mailbox. */
  lemma FirstIsStored(d: Disk, job: Job, rs: seq<AgentId>)
    requires rs != [] && JobOk(job) && RecipientsOk(rs) && Settled(FileOf(d.logs, rs[0]))
    ensures var e := AfterSend(d, job, rs);
            var q := SeqOf(d.seqs, rs[0]) + 1;
            && SeqOf(e.seqs, rs[0]) == q
            && RecordFor(job, d.counter + 1, rs[0], q) in RecordsOf(e.logs, rs[0])
  {
    var a := rs[0];
    var q := SeqOf(d.seqs, a) + 1;
    var rec := RecordFor(job, d.counter + 1, a, q);
    var d1 := d.(counter := d.counter + 1);
    var d2 := DeliverTo(d1, job, d.counter + 1, a);
    hide Encoding, InsertOrReplace, DeliverAll, Settled, RecordsIn;
    assert WellFormed(rec);
    AppendView(d.logs, a, rec, d2.logs);
    assert DeliverAll(d1, job, d.counter + 1, rs) == DeliverAll(d2, job, d.counter + 1, rs[1..]) by {
      Unfold(d1, job, d.counter + 1, rs);
    }
    OthersKeepTheirs(d2, job, d.counter + 1, rs[1..], a);
  }

  lemma Unfold(d: Disk, job: Job, id: nat, rs: seq<AgentId>)
    requires rs != []
    ensures DeliverAll(d, job, id, rs) == DeliverAll(DeliverTo(d, job, id, rs[0]), job, id, rs[1..])
  {
  }

  lemma {:induction false} ServedLogKeys(d: Disk, job: Job, id: nat, rs: seq<AgentId>)
    ensures DeliverAll(d, job, id, rs).logs.Keys == d.logs.Keys + set a | a in rs
    decreases rs
  {
    hide Encoding, InsertOrReplace, FileOf, SeqOf;
    if rs != [] {
      ServedLogKeys(DeliverTo(d, job, id, rs[0]), job, id, rs[1..]);
      assert rs == [rs[0]] + rs[1..];
    }
  }
}
