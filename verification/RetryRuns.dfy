/** Repeated keys over whole runs: Send and Reply with a key that was ever sent return the original id and
    leave the disk alone, and after a broadcast that died halfway they can never reach the rest. */
module RetryRuns {
  import opened Text
  import opened Codec
  import opened Storage
  import opened Protocol
  import opened Invariant
  import opened Preservation
  import opened Runs
  import opened KeyedSends
  import opened Dedup
  import opened IndexCoverage
  import opened RegistryLog
  import opened Bus

  // ---- One state ----

  /** The call wrote nothing and returned the id the key was first sent under, naming only deliveries of
      that send. */
  ghost predicate Repeats(s: State, key: string, id: int, r: R.Result<SendResult>, after: Disk) {
    && after == s.disk && r.Ok? && r.value.id == id
    && forall d :: d in r.value.delivered ==> HasKey(s.hist, NameOf(d), key)
  }

  lemma AnswerRepeats(s: State, n: Name, key: string, res: SendResult)
    requires Inv(s) && KeyInv(s) && s.lock.Free? && HasKey(s.hist, n, key)
    ensures KeyKnown(s.disk, key) && !SomeUnreadable(s.disk.logs)
    ensures Answers(s.disk, key, res) ==> Repeats(s, key, s.hist[n].rec.id, R.Ok(res), s.disk)
  {
    InvParts(s);
    AllReadable(s);
    FreeAwaitsNone(s);
    hide Inv, KeyInv, Answers, AwaitsRow, SomeUnreadable, HasKey, KeyKnown;
    assert n in s.hist by { KeyIsThere(s.hist, n, key); }
    RepeatIsAnswered(s, n, key, res);
    if Answers(s.disk, key, res) {
      AnswersAreHistorical(s, key, res);
    }
  }

  lemma KeyIsThere(hist: History, n: Name, key: string)
    requires HasKey(hist, n, key)
    ensures n in hist
  {
  }

  lemma AllReadable(s: State)
    requires FilesOk(s)
    ensures !SomeUnreadable(s.disk.logs)
  {
    hide Readable, Settled;
    forall a | a in s.disk.logs ensures Readable(s.disk.logs[a]) {
      assert Readable(FileOf(s.disk.logs, a));
    }
  }

  /** A send, by anybody and with whatever message and recipients, under a key that was ever sent. */
  lemma SendRepeats(s: State, n: Name, key: string, agents: Agents, again: Job, toAgent: string, toRole: string,
                    r: R.Result<SendResult>, after: Disk)
    requires Inv(s) && KeyInv(s) && s.lock.Free? && HasKey(s.hist, n, key)
    requires again.key == Some(key) && Sent(s.disk, agents, again, toAgent, toRole, r, after)
    ensures Repeats(s, key, s.hist[n].rec.id, r, after) && Answers(s.disk, key, r.value)
  {
    hide Inv, KeyInv, Answers, SomeUnreadable, KeyKnown, RowKnows, Expands, AfterSend, ResultOf, Repeats, HasKey;
    AnswerRepeats(s, n, key, SendResult(0, []));
    AnswerRepeats(s, n, key, r.value);
  }

  /** A reply, to whatever record, found or not. */
  lemma ReplyRepeats(s: State, n: Name, key: string, agents: Agents, again: Job, mailbox: AgentId, cites: int,
                     r: R.Result<SendResult>, after: Disk)
    requires Inv(s) && KeyInv(s) && s.lock.Free? && HasKey(s.hist, n, key)
    requires again.key == Some(key) && Replied(s.disk, agents, again, mailbox, cites, r, after)
    ensures Repeats(s, key, s.hist[n].rec.id, r, after) && Answers(s.disk, key, r.value)
  {
    hide Inv, KeyInv, Answers, SomeUnreadable, KeyKnown, RowKnows, Sent, LookupOutcome, Repeats, HasKey;
    AnswerRepeats(s, n, key, SendResult(0, []));
    AnswerRepeats(s, n, key, r.value);
  }

  /** The only record of a key is answered as its only delivery. */
  lemma OneRecordAnswer(s: State, n: Name, key: string, res: SendResult)
    requires Inv(s) && HasKey(s.hist, n, key) && (forall m :: HasKey(s.hist, m, key) ==> m == n)
    requires Answers(s.disk, key, res)
    ensures res == SendResult(s.hist[n].rec.id, [Delivery(n.0, n.1)])
  {
    InvParts(s);
    hide Inv, FilesOk, SendsOk, LiveOk, ReceiptsOk, PcOk, HasKey, IndexAnswer, ScanAnswer, RowHasKey, Lists;
    if RowKnows(s.disk.rows, key) {
      var m :| RowHasKey(s.disk.rows, m, key);
      RowHasSentKey(s, m, key);
      UniqueAnswer(s.disk.rows, key, res, m) by { hide HistOk; }
    } else {
      var order :| Lists(order, s.disk.logs) && ScanAnswer(order, s.disk.logs, key, res);
      OneRecordScan(s, n, key, order, res);
    }
  }

  lemma OneRecordScan(s: State, n: Name, key: string, order: seq<AgentId>, res: SendResult)
    requires Inv(s) && HasKey(s.hist, n, key) && (forall m :: HasKey(s.hist, m, key) ==> m == n)
    requires Lists(order, s.disk.logs) && ScanAnswer(order, s.disk.logs, key, res)
    ensures res == SendResult(s.hist[n].rec.id, [Delivery(n.0, n.1)])
  {
    OneRecordHits(s, n, key, order);
    var h := (n.0, s.hist[n].rec);
    hide Inv, HasKey, Hits, ByAgent, Lists;
    assert DeliveriesOfHits([h]) == [Delivery(n.0, n.1)];
    SinglePermutation(res.delivered, Delivery(n.0, n.1));
  }

  lemma OneRecordHits(s: State, n: Name, key: string, order: seq<AgentId>)
    requires Inv(s) && HasKey(s.hist, n, key) && (forall m :: HasKey(s.hist, m, key) ==> m == n)
    requires Lists(order, s.disk.logs) && Hits(order, s.disk.logs, key) != []
    ensures Hits(order, s.disk.logs, key) == [(n.0, s.hist[n].rec)] && s.hist[n].rec.seqNo == n.1
  {
    InvParts(s);
    assert Ascends(s.disk.logs);
    var hits := Hits(order, s.disk.logs, key);
    hide Inv, FilesOk, HistOk, SendsOk, LiveOk, RowsOk, ReceiptsOk, PcOk, Hits, Ascends;
    HitsDistinct(order, s.disk.logs, key);
    hide Lists;
    forall i | 0 <= i < |hits| ensures hits[i] == (n.0, s.hist[n].rec) && s.hist[n].rec.seqNo == n.1 {
      OneRecordHit(s, n, key, order, i);
    }
    hide HasKey;
    assert hits[0] == (n.0, s.hist[n].rec) && hits[0] in hits;
    OneElement(hits, (n.0, s.hist[n].rec));
  }

  lemma OneRecordHit(s: State, n: Name, key: string, order: seq<AgentId>, i: nat)
    requires HistOk(s) && HasKey(s.hist, n, key) && (forall m :: HasKey(s.hist, m, key) ==> m == n)
    requires i < |Hits(order, s.disk.logs, key)|
    ensures Hits(order, s.disk.logs, key)[i] == (n.0, s.hist[n].rec) && s.hist[n].rec.seqNo == n.1
  {
    hide HistOk, Hits;
    HitIsHistorical(s, order, key, i);
  }

  // ---- Runs: a key that was sent is closed ----

  /** Nobody is sending under the key, which was sent before. */
  ghost predicate KeyClosed(s: State, n: Name, key: string) {
    HasKey(s.hist, n, key) && (s.lock.Held? && s.lock.pc.Sending? ==> s.lock.pc.job.key != Some(key))
  }

  lemma StepCloses(s: State, st: Step, n: Name, key: string)
    requires Inv(s) && KeyInv(s) && KeyClosed(s, n, key) && Enabled(s, st)
    ensures KeyClosed(Apply(s, st), n, key) && forall m :: HasKey(Apply(s, st).hist, m, key) <==> HasKey(s.hist, m, key)
  {
    hide Inv, SendingAt, DoAppend, DoWriteCounter, CanWriteCounter, CanArchive, CanRewrite, CanTruncate, CanRebuild,
      CanLosePower, DoLosePower;
    match st
    case BeginSend(pid, job, rs) =>
      BeginIsOther(s, job, rs, n, key);
      hide JobOk, RecipientsOk, KeyKnown, KeyInv;
      assert Apply(s, st) == DoBeginSend(s, pid, job, rs);
    case AppendRecord => AppendIsOther(s, n, key);
    case WriteCounter(order) => CounterHist(s, order);
    case _ => QuietStep(s, st);
  }

  lemma AppendIsOther(s: State, n: Name, key: string)
    requires Inv(s) && KeyClosed(s, n, key) && SendingAt(s, false, true, false)
    ensures KeyClosed(DoAppend(s), n, key) && forall m :: HasKey(DoAppend(s).hist, m, key) <==> HasKey(s.hist, m, key)
  {
    assert s.lock.Held? && s.lock.pc.Sending? && s.lock.pc.job.key != Some(key);
    hide Inv, DoAppend, SendingAt, PendingRecord, HasKey, SendsOk, StoredKey;
    AppendPlace(s);
    SameBearers(s.hist, (s.lock.pc.todo[0], PendingRecord(s.lock.pc).seqNo),
                Entry(s.sends, PendingRecord(s.lock.pc), s.lock.pc.job.key), key);
  }

  lemma SameBearers(hist: History, name: Name, e: Entry, key: string)
    requires name !in hist && e.key != Some(key)
    ensures forall m :: HasKey(hist[name := e], m, key) <==> HasKey(hist, m, key)
  {
  }

  lemma BeginIsOther(s: State, job: Job, rs: seq<AgentId>, n: Name, key: string)
    requires Inv(s) && KeyInv(s) && HasKey(s.hist, n, key) && CanBeginSend(s, job, rs)
    ensures job.key != Some(key)
  {
    assert s.lock.Free? by { hide JobOk, RecipientsOk, KeyKnown; }
    FreeAwaitsNone(s);
    hide Inv, KeyInv, CanBeginSend, AwaitsRow, HasKey;
    RepeatIsAnswered(s, n, key, SendResult(0, []));
  }

  lemma {:induction false} RunCloses(s: State, steps: seq<Step>, n: Name, key: string)
    requires Inv(s) && KeyInv(s) && KeyClosed(s, n, key) && Legal(s, steps) && GuardedKeys(s, steps)
    ensures Inv(Run(s, steps)) && KeyInv(Run(s, steps)) && KeyClosed(Run(s, steps), n, key)
    ensures forall m :: HasKey(Run(s, steps).hist, m, key) <==> HasKey(s.hist, m, key)
    decreases steps
  {
    hide Inv, Enabled, Apply, KeyInv, KeyGuard, KeyClosed, HasKey;
    if steps != [] {
      StepKeeps(s, steps[0]);
      StepKeyed(s, steps[0]);
      StepCloses(s, steps[0], n, key);
      RunCloses(Apply(s, steps[0]), steps[1..], n, key);
    }
  }

  // ---- A broadcast that dies halfway ----

  /** The running send has not written to the mailbox yet. */
  ghost predicate StillToServe(s: State, a: AgentId) {
    && s.lock.Held? && s.lock.pc.Sending? && s.lock.pc.todo != []
    && a in if s.lock.pc.stage.Written? then s.lock.pc.todo[1..] else s.lock.pc.todo
  }

  lemma RunningSend(s: State, key: string)
    requires Inv(s) && KeyInv(s) && s.lock.Held? && s.lock.pc.Sending? && s.lock.pc.job.key == Some(key)
    ensures forall m :: HasKey(s.hist, m, key) ==> !StillToServe(s, m.0) && s.hist[m].rec.id == s.lock.pc.id
  {
    InvParts(s);
    assert OwnKey(s) by { hide KeyOnce, KeysKnown, OwnKey; }
    hide Inv, KeyInv, FilesOk, HistOk, SendsOk, LiveOk, RowsOk, ReceiptsOk;
    assert SendPcOk(s, s.lock.pc);
    hide PcOk, JobOk, RecipientsOk, DeliveredOk, Own;
  }

  lemma DeathCloses(s: State, st: Step, n: Name, key: string)
    requires Inv(s) && HasKey(s.hist, n, key) && Enabled(s, st) && (st.Kill? || st.PowerLoss?)
    ensures KeyClosed(Apply(s, st), n, key) && Apply(s, st).hist == s.hist
  {
    RecordsStay(s, st);
    DeathFrees(s, st);
    hide Inv, Enabled, Apply, SameFiles;
  }

  /** When a keyed send dies after some of its recipients were served, the others are never reached under
      that key: in every guarded run from there exactly the records that bear the key now bear it, and
      whenever the lock is free a send or reply under it, by anybody and to anybody, writes nothing and returns the
      dead send's id and none of the others. */
  lemma KilledBroadcastStaysPartial(s: State, st: Step, n: Name, key: string, steps: seq<Step>, agents: Agents, again: Job,
                                    toAgent: string, toRole: string, mailbox: AgentId, cites: int,
                                    r: R.Result<SendResult>, after: Disk)
    requires Inv(s) && KeyInv(s) && s.lock.Held? && s.lock.pc.Sending? && s.lock.pc.job.key == Some(key)
    requires HasKey(s.hist, n, key) && (st.Kill? || st.PowerLoss?) && Enabled(s, st) && KeyGuard(s, st)
    requires Legal(Apply(s, st), steps) && GuardedKeys(Apply(s, st), steps)
    ensures var u := Run(Apply(s, st), steps);
            && (forall m :: HasKey(u.hist, m, key) <==> HasKey(s.hist, m, key))
            && (forall m :: HasKey(u.hist, m, key) ==> !StillToServe(s, m.0))
            && (u.lock.Free? && again.key == Some(key)
                && (Sent(u.disk, agents, again, toAgent, toRole, r, after)
                    || Replied(u.disk, agents, again, mailbox, cites, r, after)) ==>
                  && after == u.disk && r.Ok? && r.value.id == s.lock.pc.id
                  && forall d :: d in r.value.delivered ==> !StillToServe(s, d.agent))
  {
    hide Inv, KeyInv, HasKey, KeyClosed, Enabled, Apply, KeyGuard, Legal, GuardedKeys, Run, Sent, Replied,
      StillToServe, Repeats, SeqOf, Answers;
    var t := Apply(s, st);
    RunningSend(s, key);
    StepKeeps(s, st);
    StepKeyed(s, st);
    DeathCloses(s, st, n, key);
    RunCloses(t, steps, n, key);
    RunExtends(t, steps);
    var u := Run(t, steps);
    if u.lock.Free? && again.key == Some(key) {
      if Sent(u.disk, agents, again, toAgent, toRole, r, after) {
        SendRepeats(u, n, key, agents, again, toAgent, toRole, r, after);
        RepeatsFacts(s, u, n, key, r, after);
      } else if Replied(u.disk, agents, again, mailbox, cites, r, after) {
        ReplyRepeats(u, n, key, agents, again, mailbox, cites, r, after);
        RepeatsFacts(s, u, n, key, r, after);
      }
    }
  }

  lemma RepeatsFacts(s: State, u: State, n: Name, key: string, r: R.Result<SendResult>, after: Disk)
    requires HasKey(s.hist, n, key) && HasKey(u.hist, n, key) && Repeats(u, key, u.hist[n].rec.id, r, after)
    requires (forall m :: m in s.hist ==> m in u.hist && u.hist[m] == s.hist[m])
    requires s.lock.Held? && s.lock.pc.Sending?
    requires forall m :: HasKey(u.hist, m, key) ==> !StillToServe(s, m.0)
    requires forall m :: HasKey(s.hist, m, key) ==> s.hist[m].rec.id == s.lock.pc.id
    ensures after == u.disk && r.Ok? && r.value.id == s.lock.pc.id
    ensures forall d :: d in r.value.delivered ==> !StillToServe(s, d.agent)
  {
    hide StillToServe;
  }

  // ---- A key with one recipient ----

  /** Every send under the key writes at most one record, and returns it. */
  ghost predicate OneInv(s: State, key: string) {
    && (forall m, n :: HasKey(s.hist, m, key) && HasKey(s.hist, n, key) && s.hist[m].send == s.hist[n].send ==> m == n)
    && (forall c :: c in s.receipts && c.job.key == Some(key) ==> OneDelivery(s.hist, c.result.delivered, key))
    && (s.lock.Held? && s.lock.pc.Sending? && s.lock.pc.job.key == Some(key) ==> OnePc(s, s.lock.pc, key))
  }

  ghost predicate OneDelivery(hist: History, delivered: seq<Delivery>, key: string) {
    |delivered| == 1 && HasKey(hist, NameOf(delivered[0]), key)
  }

  ghost predicate OnePc(s: State, pc: Pc, key: string)
    requires pc.Sending?
  {
    && (if pc.todo == [] then OneDelivery(s.hist, pc.delivered, key) else |pc.todo| == 1 && pc.delivered == [])
    && (pc.todo != [] && !pc.stage.Written? ==> forall n :: n in s.hist ==> s.hist[n].send != s.sends)
  }

  /** No send under the key has several recipients. */
  ghost predicate OneGuard(st: Step, key: string) {
    st.BeginSend? && st.job.key == Some(key) ==> |st.recipients| == 1
  }

  ghost predicate OneSteps(steps: seq<Step>, key: string) {
    forall i :: 0 <= i < |steps| ==> OneGuard(steps[i], key)
  }

  ghost predicate SamePlace(s: State, t: State) {
    && t.hist == s.hist && t.sends == s.sends && t.receipts == s.receipts
    && (t.lock.Held? && t.lock.pc.Sending? ==>
          && s.lock.Held? && s.lock.pc.Sending? && t.lock.pc.job == s.lock.pc.job && t.lock.pc.todo == s.lock.pc.todo
          && t.lock.pc.delivered == s.lock.pc.delivered && (t.lock.pc.stage.Written? <==> s.lock.pc.stage.Written?))
  }

  lemma OneSamePlace(s: State, t: State, key: string)
    requires OneInv(s, key) && SamePlace(s, t)
    ensures OneInv(t, key)
  {
    hide HasKey;
  }

  lemma OtherPlace(s: State, st: Step)
    requires Enabled(s, st) && !st.BeginSend? && !st.AppendRecord? && !st.InsertRow? && !st.FinishSend?
    ensures SamePlace(s, Apply(s, st))
  {
    hide CanArchive, Lists, Encoding, InsertSeq, Entries, SeqOf, FileOf, MaxIdOver;
  }

  lemma OneBegin(s: State, pid: nat, job: Job, rs: seq<AgentId>, key: string)
    requires SendsOk(s) && OneInv(s, key) && (job.key == Some(key) ==> |rs| == 1)
    ensures OneInv(DoBeginSend(s, pid, job, rs), key)
  {
    hide OneDelivery, HasKey;
    var t := DoBeginSend(s, pid, job, rs);
    assert forall n :: n in t.hist ==> t.hist[n].send != t.sends;
  }

  lemma DeliveryStays(hist: History, name: Name, e: Entry, delivered: seq<Delivery>, key: string)
    requires name !in hist
    ensures OneDelivery(hist, delivered, key) ==> OneDelivery(hist[name := e], delivered, key)
  {
  }

  lemma OneAppend(s: State, key: string)
    requires Inv(s) && OneInv(s, key) && SendingAt(s, false, true, false)
    ensures OneInv(DoAppend(s), key)
  {
    var t := DoAppend(s);
    var name := (s.lock.pc.todo[0], PendingRecord(s.lock.pc).seqNo);
    var e := Entry(s.sends, PendingRecord(s.lock.pc), s.lock.pc.job.key);
    AppendPlace(s);
    SameReceipts(s);
    hide Inv, DoAppend, PendingRecord, SendsOk, OneDelivery, StoredKey;
    forall c | c in t.receipts && c.job.key == Some(key) ensures OneDelivery(t.hist, c.result.delivered, key) {
      DeliveryStays(s.hist, name, e, c.result.delivered, key);
    }
    OneMoreBearer(s.hist, name, e, key);
  }

  lemma SameReceipts(s: State)
    requires SendingAt(s, false, true, false)
    ensures DoAppend(s).receipts == s.receipts && DoAppend(s).lock.pc.delivered == s.lock.pc.delivered
    ensures s.lock.Held? && s.lock.pc.Sending? && s.lock.pc.todo != []
  {
    hide Encoding, FileOf;
  }

  lemma OneMoreBearer(hist: History, name: Name, e: Entry, key: string)
    requires name !in hist && (e.key == Some(key) ==> forall n :: n in hist ==> hist[n].send != e.send)
    requires forall m, n :: HasKey(hist, m, key) && HasKey(hist, n, key) && hist[m].send == hist[n].send ==> m == n
    ensures var g := hist[name := e];
            forall m, n :: HasKey(g, m, key) && HasKey(g, n, key) && g[m].send == g[n].send ==> m == n
  {
    var g := hist[name := e];
    forall m, n | HasKey(g, m, key) && HasKey(g, n, key) && g[m].send == g[n].send ensures m == n {
      assert m != name ==> HasKey(hist, m, key);
      assert n != name ==> HasKey(hist, n, key);
    }
  }

  lemma OneInsert(s: State, key: string)
    requires Inv(s) && OneInv(s, key) && SendingAt(s, false, false, true)
    ensures OneInv(DoInsertRow(s), key)
  {
    var pc := s.lock.pc;
    var d := Delivery(pc.todo[0], pc.stage.seqNo);
    InvParts(s);
    assert SendPcOk(s, pc);
    WrittenPc(s);
    assert NameOf(d) in s.hist && s.hist[NameOf(d)].key == pc.job.key;
    InsertedPlace(s);
    hide Inv, FilesOk, HistOk, SendsOk, LiveOk, RowsOk, ReceiptsOk, PcOk, SendPcOk, DoInsertRow, IsWritten, SendingAt;
    assert [d][0] == d && [] + [d] == [d];
  }

  lemma InsertedPlace(s: State)
    requires SendingAt(s, false, false, true)
    ensures var t := DoInsertRow(s);
            && t.hist == s.hist && t.sends == s.sends && t.receipts == s.receipts && t.lock.Held? && t.lock.pc.Sending?
            && t.lock.pc.job == s.lock.pc.job && t.lock.pc.todo == s.lock.pc.todo[1..] && t.lock.pc.stage.Ready?
            && t.lock.pc.delivered == s.lock.pc.delivered + [Delivery(s.lock.pc.todo[0], s.lock.pc.stage.seqNo)]
  {
    hide InsertOrReplace;
  }

  lemma OneFinish(s: State, key: string)
    requires OneInv(s, key) && s.lock.Held? && s.lock.pc.Sending? && s.lock.pc.todo == []
    ensures OneInv(DoFinishSend(s), key)
  {
    hide HasKey;
  }

  lemma StepOne(s: State, st: Step, key: string)
    requires Inv(s) && OneInv(s, key) && Enabled(s, st) && OneGuard(st, key)
    ensures OneInv(Apply(s, st), key)
  {
    InvParts(s);
    hide Inv, OneInv, SendsOk, FilesOk, HistOk, LiveOk, RowsOk, ReceiptsOk, PcOk, SendingAt, DoAppend, DoInsertRow, SamePlace,
      CanBeginSend, CanArchive, CanRewrite, CanTruncate, CanWriteCounter, CanRebuild, CanLosePower, DoLosePower;
    match st
    case BeginSend(pid, job, rs) => OneBegin(s, pid, job, rs, key);
    case AppendRecord => OneAppend(s, key);
    case InsertRow => OneInsert(s, key);
    case FinishSend => OneFinish(s, key);
    case _ =>
      OtherPlace(s, st);
      OneSamePlace(s, Apply(s, st), key);
  }

  lemma {:induction false} RunOne(s: State, steps: seq<Step>, key: string)
    requires Inv(s) && OneInv(s, key) && Legal(s, steps) && OneSteps(steps, key)
    ensures OneInv(Run(s, steps), key)
    decreases steps
  {
    hide Inv, OneInv, Enabled, Apply, OneGuard;
    if steps != [] {
      StepKeeps(s, steps[0]);
      StepOne(s, steps[0], key);
      RunOne(Apply(s, steps[0]), steps[1..], key);
    }
  }

  lemma ReceiptIsOnly(s: State, c: Receipt, key: string) returns (n: Name)
    requires Inv(s) && KeyInv(s) && OneInv(s, key) && c in s.receipts && c.job.key == Some(key)
    ensures HasKey(s.hist, n, key) && (forall m :: HasKey(s.hist, m, key) ==> m == n)
    ensures c.result == SendResult(s.hist[n].rec.id, [Delivery(n.0, n.1)])
  {
    InvParts(s);
    hide Inv, FilesOk, HistOk, SendsOk, LiveOk, RowsOk, PcOk, KeysKnown, OwnKey, OnePc;
    var ds := c.result.delivered;
    n := NameOf(ds[0]);
    assert n.1 == ds[0].seqNo && ds == [ds[0]] && DeliveredOk(s.hist, ds, c.job, c.result.id);
    forall m | HasKey(s.hist, m, key) ensures m == n {
      assert SharesKey(s.hist[m], s.hist[n]);
    }
  }

  // ---- Whole runs ----

  lemma KeyedState(steps: seq<Step>)
    requires Legal(INIT, steps) && GuardedKeys(INIT, steps)
    ensures Inv(Run(INIT, steps)) && KeyInv(Run(INIT, steps))
  {
    hide Inv, Legal, Run, GuardedKeys, KeyInv;
    InitOk();
    assert KeyInv(INIT) by { InitKeyed(); }
    RunKeyed(INIT, steps);
    RunKeeps(INIT, steps);
  }

  lemma InitKeyed()
    ensures KeyInv(INIT)
  {
  }

  lemma InitOne(key: string)
    ensures OneInv(INIT, key)
  {
  }

  /** In every run that forgets no key: whenever the lock is free, a send or a reply under a key that any
      record was ever sent with, by whichever process and with whatever message, writes nothing and returns
      the id of that record and only deliveries of its send. */
  lemma RepeatsAreAnswered(steps: seq<Step>, n: Name, key: string, agents: Agents, again: Job, toAgent: string,
                           toRole: string, mailbox: AgentId, cites: int, r: R.Result<SendResult>, after: Disk)
    requires Legal(INIT, steps) && GuardedKeys(INIT, steps) && again.key == Some(key)
    requires var s := Run(INIT, steps);
             && s.lock.Free? && HasKey(s.hist, n, key)
             && (Sent(s.disk, agents, again, toAgent, toRole, r, after)
                 || Replied(s.disk, agents, again, mailbox, cites, r, after))
    ensures Repeats(Run(INIT, steps), key, Run(INIT, steps).hist[n].rec.id, r, after)
  {
    KeyedState(steps);
    var s := Run(INIT, steps);
    hide Inv, Legal, Run, GuardedKeys, KeyInv, Sent, Replied, Repeats, Answers;
    if Sent(s.disk, agents, again, toAgent, toRole, r, after) {
      SendRepeats(s, n, key, agents, again, toAgent, toRole, r, after);
    } else {
      ReplyRepeats(s, n, key, agents, again, mailbox, cites, r, after);
    }
  }

  /** When moreover no send under the key has several recipients, it returns exactly what the original send
      returned. */
  lemma RepeatsReturnTheOriginal(steps: seq<Step>, c: Receipt, key: string, agents: Agents, again: Job, toAgent: string,
                                 toRole: string, mailbox: AgentId, cites: int, r: R.Result<SendResult>, after: Disk)
    requires Legal(INIT, steps) && GuardedKeys(INIT, steps) && OneSteps(steps, key) && again.key == Some(key)
    requires var s := Run(INIT, steps);
             && s.lock.Free? && c in s.receipts && c.job.key == Some(key)
             && (Sent(s.disk, agents, again, toAgent, toRole, r, after)
                 || Replied(s.disk, agents, again, mailbox, cites, r, after))
    ensures r == R.Ok(c.result) && after == Run(INIT, steps).disk
  {
    KeyedState(steps);
    InitOk();
    InitOne(key);
    var s := Run(INIT, steps);
    hide Inv, Legal, Run, GuardedKeys, OneSteps, OneInv, KeyInv, Sent, Replied, Answers, HasKey;
    RunOne(INIT, steps, key);
    var n := ReceiptIsOnly(s, c, key);
    if Sent(s.disk, agents, again, toAgent, toRole, r, after) {
      SendRepeats(s, n, key, agents, again, toAgent, toRole, r, after);
    } else {
      ReplyRepeats(s, n, key, agents, again, mailbox, cites, r, after);
    }
    OneRecordAnswer(s, n, key, r.value);
  }
}
