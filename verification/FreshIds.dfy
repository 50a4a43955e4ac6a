/** When global ids stay fresh against the full history, archives included. Recovery recomputes
    the counter from the live logs alone, so an Open after a compaction may lower it below an
    archived id; the exact condition is stated and proved below. */
module FreshIds {
  import opened Text
  import opened Codec
  import opened Storage
  import opened Protocol
  import opened Invariant
  import opened Preservation
  import opened Runs

  /** No two sends of the whole history share an id. */
  ghost predicate IdsFresh(s: State) {
    forall m, n :: m in s.hist && n in s.hist && s.hist[m].rec.id == s.hist[n].rec.id ==>
      s.hist[m].send == s.hist[n].send
  }

  ghost predicate IdsWithinCounter(s: State) {
    forall n :: n in s.hist ==> s.hist[n].rec.id <= s.disk.counter
  }

  /** The running send shares its id with no other. */
  ghost predicate OwnId(s: State) {
    s.lock.Held? && s.lock.pc.Sending? ==>
      s.lock.pc.id == s.disk.counter
      && forall n :: n in s.hist && s.hist[n].rec.id == s.lock.pc.id ==> s.hist[n].send == s.sends
  }

  ghost predicate FreshInv(s: State) {
    IdsFresh(s) && IdsWithinCounter(s) && OwnId(s)
  }

  /** What an Open would have to find: no archived id above the largest live one. */
  ghost predicate ArchiveBelowLive(s: State, order: seq<AgentId>) {
    forall a, r :: r in RecordsOf(s.disk.archives, a) ==> r.id <= MaxIdOver(order, s.disk.logs)
  }

  ghost predicate StepGuard(s: State, st: Step) {
    st.WriteCounter? ==> ArchiveBelowLive(s, st.order)
  }

  /** Every Open of the run finds the archived ids below the live ones. */
  ghost predicate GuardedOpens(s: State, steps: seq<Step>)
    requires Legal(s, steps)
    decreases steps
  {
    steps == [] || (StepGuard(s, steps[0]) && GuardedOpens(Apply(s, steps[0]), steps[1..]))
  }

  // ---- The guard is sufficient ----

  lemma RecordedFresh(hist: History, hist': History, a: AgentId, rec: Record, send: nat, counter: nat)
    requires forall m, n :: m in hist && n in hist && hist[m].rec.id == hist[n].rec.id ==> hist[m].send == hist[n].send
    requires forall n :: n in hist ==> hist[n].rec.id <= counter && (hist[n].rec.id == rec.id ==> hist[n].send == send)
    requires rec.id <= counter && Recorded(hist, hist', a, rec, send)
    ensures forall m, n :: m in hist' && n in hist' && hist'[m].rec.id == hist'[n].rec.id ==> hist'[m].send == hist'[n].send
    ensures forall n :: n in hist' ==> hist'[n].rec.id <= counter && (hist'[n].rec.id == rec.id ==> hist'[n].send == send)
  {
  }

  lemma AppendFresh(s: State)
    requires Inv(s) && FreshInv(s) && SendingAt(s, false, true, false)
    ensures FreshInv(DoAppend(s))
  {
    assert SendPcOk(s, s.lock.pc);
    SendIsRecorded(s);
    var t := DoAppend(s);
    var a, rec := s.lock.pc.todo[0], PendingRecord(s.lock.pc);
    assert t.disk.counter == s.disk.counter && t.sends == s.sends && rec.id == s.lock.pc.id == t.lock.pc.id;
    hide Inv, SendPcOk, SendingAt, DoAppend, PendingRecord, Recorded;
    RecordedFresh(s.hist, t.hist, a, rec, s.sends, s.disk.counter);
  }

  lemma BeginFresh(s: State, pid: nat, job: Job, rs: seq<AgentId>)
    requires FreshInv(s)
    ensures FreshInv(DoBeginSend(s, pid, job, rs))
  {
  }

  lemma StepFresh(s: State, st: Step)
    requires Inv(s) && FreshInv(s) && Enabled(s, st) && StepGuard(s, st)
    ensures FreshInv(Apply(s, st))
  {
    hide Inv, FreshInv, ArchiveBelowLive, SendingAt, DoAppend, DoBeginSend, DoWriteCounter;
    match st
    case AppendRecord => AppendFresh(s);
    case BeginSend(pid, job, rs) => BeginFresh(s, pid, job, rs);
    case WriteCounter(order) => CounterFresh(s, order);
    case _ =>
      QuietStep(s, st);
      QuietFresh(s, Apply(s, st));
  }

  lemma QuietFresh(s: State, t: State)
    requires FreshInv(s) && t.hist == s.hist && t.sends == s.sends && t.disk.counter == s.disk.counter
    requires t.lock.Held? && t.lock.pc.Sending? ==>
               s.lock.Held? && s.lock.pc.Sending? && t.lock.pc.id == s.lock.pc.id && t.lock.pc.job == s.lock.pc.job
    ensures FreshInv(t)
  {
  }

  lemma CounterFresh(s: State, order: seq<AgentId>)
    requires Inv(s) && FreshInv(s) && CanWriteCounter(s, order) && ArchiveBelowLive(s, order)
    ensures FreshInv(DoWriteCounter(s, order))
  {
    WriteCounterBound(s, order);
    hide Inv, MaxIdOver, ArchiveBelowLive, Lists;
  }

  /** After the counter write every historical id is within the counter exactly when the guard held. */
  lemma WriteCounterBound(s: State, order: seq<AgentId>)
    requires Inv(s) && CanWriteCounter(s, order)
    ensures IdsWithinCounter(DoWriteCounter(s, order)) <==> ArchiveBelowLive(s, order)
  {
    LiveIdsBelowMax(s, order);
    assert HistOk(s);
    hide RecordsOf, MaxIdOver, FilesOk, SendsOk, LiveOk, RowsOk, ReceiptsOk, PcOk, NamesOk, Lists;
    var t := DoWriteCounter(s, order);
    if ArchiveBelowLive(s, order) {
      forall n | n in s.hist ensures s.hist[n].rec.id <= t.disk.counter {
        assert In(s.disk.logs, s.hist, n) ==> IsLive(s, n);
      }
    }
    if IdsWithinCounter(t) {
      forall a, r | r in RecordsOf(s.disk.archives, a) ensures r.id <= MaxIdOver(order, s.disk.logs) {
        assert (a, r.seqNo) in t.hist;
      }
    }
  }

  lemma {:induction false} RunFresh(s: State, steps: seq<Step>)
    requires Inv(s) && FreshInv(s) && Legal(s, steps) && GuardedOpens(s, steps)
    ensures FreshInv(Run(s, steps))
    decreases steps
  {
    hide Inv, Enabled, Apply, FreshInv, StepGuard;
    if steps != [] {
      StepKeeps(s, steps[0]);
      StepFresh(s, steps[0]);
      RunFresh(Apply(s, steps[0]), steps[1..]);
    }
  }

  /** Ids are fresh against the full history in every run whose Opens all meet the guard. */
  lemma IdsAreFresh(steps: seq<Step>)
    requires Legal(INIT, steps) && GuardedOpens(INIT, steps)
    ensures IdsFresh(Run(INIT, steps))
  {
    hide Inv;
    InitOk();
    RunFresh(INIT, steps);
  }

  // ---- The guard is necessary ----

  const SOME_TIME: string := "2000-01-01T00:00:00Z"

  function PlainJob(): Job {
    Job("a", "", "info", "", None, SOME_TIME, None)
  }

  lemma PlainJobOk()
    ensures JobOk(PlainJob()) && RecipientsOk(["a"])
  {
  }

  lemma BeginPlain(s: State) returns (t: State)
    requires Inv(s) && s.lock.Free? && !s.down
    ensures Enabled(s, BeginSend(0, PlainJob(), ["a"])) && t == Apply(s, BeginSend(0, PlainJob(), ["a"]))
    ensures Inv(t) && t.hist == s.hist && t.disk.counter == s.disk.counter + 1 && t.sends == s.sends + 1 && !t.down
    ensures t.lock == Held(0, Sending(PlainJob(), s.disk.counter + 1, ["a"], [], Ready))
  {
    PlainJobOk();
    hide Inv, JobOk, RecipientsOk, KeyKnown;
    t := Apply(s, BeginSend(0, PlainJob(), ["a"]));
    StepKeeps(s, BeginSend(0, PlainJob(), ["a"]));
  }

  /** A send that takes an id and dies. */
  lemma BeginAndDie(s: State) returns (t: State)
    requires Inv(s) && s.lock.Free? && !s.down
    ensures Inv(t) && t.lock.Free? && !t.down && t.hist == s.hist && t.disk.counter == s.disk.counter + 1
    ensures Legal(s, [BeginSend(0, PlainJob(), ["a"]), Kill]) && Run(s, [BeginSend(0, PlainJob(), ["a"]), Kill]) == t
  {
    var s1 := BeginPlain(s);
    hide Inv;
    t := s1.(lock := Free);
    StepKeeps(s1, Kill);
    assert Apply(s1, Kill) == t;
    hide Apply, Enabled, PlainJob;
    assert Legal(t, []) && Run(t, []) == t;
    Prepend(s1, Kill, []);
    assert [Kill] + [] == [Kill];
    Prepend(s, BeginSend(0, PlainJob(), ["a"]), [Kill]);
    assert [BeginSend(0, PlainJob(), ["a"])] + [Kill] == [BeginSend(0, PlainJob(), ["a"]), Kill];
  }

  ghost predicate NoOpen(steps: seq<Step>) {
    forall i :: 0 <= i < |steps| ==> !steps[i].WriteCounter?
  }

  lemma ReuseNext(s: State, n: Name) returns (steps: seq<Step>)
    requires Inv(s) && s.lock.Free? && !s.down && n in s.hist && s.hist[n].rec.id == s.disk.counter + 1
    ensures Legal(s, steps) && !IdsFresh(Run(s, steps)) && NoOpen(steps)
  {
    hide Inv, Enabled, Apply, IdsFresh, PlainJob, Legal, Run;
    var t := BeginPlain(s);
    SendNumbers(s);
    ReuseNow(t, n);
    Prepend(s, BeginSend(0, PlainJob(), ["a"]), [WriteSeq, AppendRecord]);
    steps := [BeginSend(0, PlainJob(), ["a"])] + [WriteSeq, AppendRecord];
  }

  /** From a free state whose counter is below a historical id, enough sends reach that id again:
      all but the last may even die right after taking their id. */
  lemma {:induction false} ReuseRun(s: State, n: Name) returns (steps: seq<Step>)
    requires Inv(s) && s.lock.Free? && !s.down && n in s.hist && s.hist[n].rec.id > s.disk.counter
    ensures Legal(s, steps) && !IdsFresh(Run(s, steps)) && NoOpen(steps)
    decreases s.hist[n].rec.id - s.disk.counter
  {
    hide Inv, Enabled, Apply, IdsFresh, PlainJob, Legal, Run;
    if s.hist[n].rec.id == s.disk.counter + 1 {
      steps := ReuseNext(s, n);
    } else {
      var t := BeginAndDie(s);
      var rest := ReuseRun(t, n);
      var head := [BeginSend(0, PlainJob(), ["a"]), Kill];
      RunConcat(s, head, rest);
      steps := head + rest;
    }
  }

  lemma SendNumbers(s: State)
    requires Inv(s)
    ensures forall n :: n in s.hist ==> s.hist[n].send <= s.sends
  {
    assert SendsOk(s);
    hide FilesOk, HistOk, LiveOk, RowsOk, ReceiptsOk, PcOk;
  }

  lemma AppendAdds(s: State, n: Name)
    requires Inv(s) && SendingAt(s, false, true, false)
    requires n in s.hist && s.hist[n].rec.id == s.lock.pc.id && s.hist[n].send < s.sends
    ensures !IdsFresh(DoAppend(s))
  {
    assert SendPcOk(s, s.lock.pc);
    SendIsRecorded(s);
    hide FilesOk, HistOk, LiveOk, SendsOk, RowsOk, ReceiptsOk, Encoding, Own, Writes, DeliveredOk, JobOk, RecipientsOk;
    var t := DoAppend(s);
    var m := (s.lock.pc.todo[0], PendingRecord(s.lock.pc).seqNo);
    assert n in t.hist && m in t.hist && t.hist[n] == s.hist[n];
  }

  lemma ReuseNow(s: State, n: Name)
    requires Inv(s) && ReadyToDeliver(s) && s.lock.pc.todo != []
    requires n in s.hist && s.hist[n].rec.id == s.lock.pc.id && s.hist[n].send < s.sends
    ensures Legal(s, [WriteSeq, AppendRecord]) && !IdsFresh(Run(s, [WriteSeq, AppendRecord]))
  {
    hide Inv;
    var s1 := Apply(s, WriteSeq);
    var s2 := Apply(s1, AppendRecord);
    StepKeeps(s, WriteSeq);
    AppendAdds(s1, n);
    hide Enabled, Apply;
    assert Legal(s2, []) && Run(s2, []) == s2;
    Prepend(s1, AppendRecord, []);
    assert [AppendRecord] + [] == [AppendRecord];
    Prepend(s, WriteSeq, [AppendRecord]);
    assert [WriteSeq] + [AppendRecord] == [WriteSeq, AppendRecord];
  }

  // ---- The exact condition ----

  /** No continuation of s, whatever is sent, killed, torn or compacted, ever gives an id twice as
      long as nobody opens the bus again. */
  ghost predicate FreshUntilNextOpen(s: State) {
    forall steps :: Legal(s, steps) && NoOpen(steps) ==> IdsFresh(Run(s, steps))
  }

  lemma {:induction false} NoOpenIsGuarded(s: State, steps: seq<Step>)
    requires Legal(s, steps) && NoOpen(steps)
    ensures GuardedOpens(s, steps)
    decreases steps
  {
    hide Enabled, Apply;
    if steps != [] {
      assert !steps[0].WriteCounter?;
      assert NoOpen(steps[1..]);
      NoOpenIsGuarded(Apply(s, steps[0]), steps[1..]);
    }
  }

  /** The state a recovery leaves. */
  ghost function Recovered(s: State, order: seq<AgentId>): State
    requires CanWriteCounter(s, order)
  {
    DoRebuild(DoWriteCounter(s, order), order)
  }

  lemma RecoverySteps(s: State, order: seq<AgentId>)
    requires CanWriteCounter(s, order)
    ensures var u := DoWriteCounter(s, order);
            && Enabled(s, WriteCounter(order)) && Apply(s, WriteCounter(order)) == u
            && Enabled(u, RebuildIndex(order)) && Apply(u, RebuildIndex(order)) == Recovered(s, order)
    ensures var t := Recovered(s, order);
            t.lock.Free? && !t.down && t.hist == s.hist && t.disk.counter == DoWriteCounter(s, order).disk.counter
  {
    hide Lists, MaxIdOver, InsertSeq, Entries;
  }

  lemma {:induction false} RecoveredOk(s: State, order: seq<AgentId>)
    requires Inv(s) && CanWriteCounter(s, order)
    ensures var t := Recovered(s, order);
            && Inv(t) && t.lock.Free? && !t.down && t.hist == s.hist
            && (IdsWithinCounter(t) <==> ArchiveBelowLive(s, order))
  {
    WriteCounterBound(s, order);
    RecoverySteps(s, order);
    hide Inv, ArchiveBelowLive, CanWriteCounter, DoWriteCounter, Recovered, Enabled, Apply;
    StepKeeps(s, WriteCounter(order));
    StepKeeps(DoWriteCounter(s, order), RebuildIndex(order));
  }

  /** A recovery keeps ids fresh from then on exactly when it found every archived id at or below
      the largest live id. */
  lemma RecoveryKeepsIdsFreshExactly(s: State, order: seq<AgentId>)
    requires Inv(s) && IdsFresh(s) && CanWriteCounter(s, order)
    ensures FreshUntilNextOpen(Recovered(s, order)) <==> ArchiveBelowLive(s, order)
  {
    var t := Recovered(s, order);
    RecoveredOk(s, order);
    hide Inv, CanWriteCounter, Recovered, ArchiveBelowLive, Legal, Run;
    if IdsWithinCounter(t) {
      assert FreshInv(t);
      forall steps | Legal(t, steps) && NoOpen(steps) ensures IdsFresh(Run(t, steps)) {
        NoOpenIsGuarded(t, steps);
        RunFresh(t, steps);
      }
    } else {
      var n :| n in t.hist && t.hist[n].rec.id > t.disk.counter;
      var steps := ReuseRun(t, n);
    }
  }
}
