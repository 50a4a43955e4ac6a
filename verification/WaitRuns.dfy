/** The wait loop beside running sends, kills and power losses. Waiting takes no lock, so its checks
    meet sends in flight; what a check can miss is exactly what awaits its row or lost it. */
module WaitRuns {
  import opened Codec
  import opened CodecLaws
  import opened Storage
  import opened Reading
  import opened Protocol
  import opened Invariant
  import opened Preservation
  import opened Runs
  import opened KeyedSends
  import opened IndexCoverage

  // ---- One state ----

  lemma RowReaches(s: State, n: Name)
    requires HistOk(s) && RowsOk(s) && IsLive(s, n) && n in s.disk.rows
    ensures Reached(s.disk.rows, n.0, s.hist[n].rec)
  {
    hide RecordsOf, Named, Kept, UniqueKeys, SeqOf, WellFormed;
    assert RowFits(s.disk.rows[n], s.hist[n]);
  }

  lemma LiveName(s: State, a: AgentId, r: Record)
    requires HistOk(s) && r in RecordsOf(s.disk.logs, a)
    ensures IsLive(s, (a, r.seqNo)) && s.hist[(a, r.seqNo)].rec == r
  {
    hide RecordsOf, NamesOk, Kept;
  }

  /** Under a covering index every live record is reached unless it awaits its row. */
  lemma ReachedUnlessAwaiting(s: State, a: AgentId, r: Record)
    requires Inv(s) && Covered(s) && r in RecordsOf(s.disk.logs, a)
    ensures Reached(s.disk.rows, a, r) || AwaitsRow(s, (a, r.seqNo))
  {
    InvParts(s);
    LiveName(s, a, r);
    hide Inv, HistOk, RowsOk, In, AwaitsRow, Reached;
    if (a, r.seqNo) in s.disk.rows {
      RowReaches(s, (a, r.seqNo));
    }
  }

  /** In every state, guarded or not, a record awaiting its row is in its log, and the fast path hides
      it from the waiter for it. */
  lemma AwaitedIsHidden(s: State, n: Name)
    requires Inv(s) && AwaitsRow(s, n)
    ensures n in s.hist && s.hist[n].rec in RecordsOf(s.disk.logs, n.0)
    ensures var r := s.hist[n].rec;
            && !Reached(s.disk.rows, n.0, r) && Passes(r, WaiterFor(r)) && Skips(s.disk.rows, n.0, WaiterFor(r))
  {
    AwaitedIsNewest(s, n);
    hide Inv, AwaitsRow, RecordsOf;
    assert !Reached(s.disk.rows, n.0, s.hist[n].rec);
    HiddenIffUnreached(s.disk.rows, n.0, s.hist[n].rec);
  }

  /** Under a covering index the fast path is exact for a mailbox exactly when none of its records
      awaits its row. */
  lemma FastPathExactly(s: State, a: AgentId)
    requires Inv(s) && Covered(s)
    ensures IndexReaches(s.disk.rows, a, RecordsOf(s.disk.logs, a)) <==> forall n :: AwaitsRow(s, n) ==> n.0 != a
  {
    forall n | AwaitsRow(s, n)
      ensures s.hist[n].rec in RecordsOf(s.disk.logs, n.0) && !Reached(s.disk.rows, n.0, s.hist[n].rec)
    {
      AwaitedIsHidden(s, n);
    }
    hide Inv, Covered, AwaitsRow, Reached, RecordsOf;
    if forall n :: AwaitsRow(s, n) ==> n.0 != a {
      forall r | r in RecordsOf(s.disk.logs, a) ensures Reached(s.disk.rows, a, r) {
        ReachedUnlessAwaiting(s, a, r);
      }
    }
  }

  /** A process that dies between an append and its row leaves a record that is live and hidden. */
  lemma DeathHides(s: State, st: Step, n: Name)
    requires Inv(s) && AwaitsRow(s, n) && Enabled(s, st) && (st.Kill? || st.PowerLoss?)
    ensures var t := Apply(s, st);
            && n in s.hist && t.hist == s.hist
            && var r := s.hist[n].rec;
               r in RecordsOf(t.disk.logs, n.0) && Passes(r, WaiterFor(r)) && Skips(t.disk.rows, n.0, WaiterFor(r))
  {
    AwaitedIsHidden(s, n);
    RecordsStay(s, st);
    hide Inv, AwaitsRow, Enabled, Apply, RecordsOf, Passes, Skips;
    assert SameFiles(s.disk.logs, Apply(s, st).disk.logs);
  }

  // ---- When hiding ends ----

  /** The insert of a later row of the record's mailbox and sender. */
  ghost predicate RowPasses(s: State, st: Step, n: Name) {
    && st.InsertRow? && SendingAt(s, false, false, true) && n in s.hist
    && s.lock.pc.todo[0] == n.0 && (s.hist[n].rec.from == "" || s.lock.pc.job.from == s.hist[n].rec.from)
  }

  lemma InsertReveals(s: State, n: Name)
    requires Inv(s) && SendingAt(s, false, false, true) && n in s.hist && s.hist[n].rec.seqNo == n.1
    requires !Reached(s.disk.rows, n.0, s.hist[n].rec)
    ensures Reached(DoInsertRow(s).disk.rows, n.0, s.hist[n].rec) <==> RowPasses(s, InsertRow, n)
  {
    hide Inv, AwaitsRow, In, DoInsertRow, Reached, InsertOrReplace;
    var name := Awaited(s);
    if name.0 == n.0 {
      AwaitedIsLast(s, name, n);
    }
    InsertChange(s, name);
    InsertedReaches(s.disk.rows, DoInsertRow(s).disk.rows, name, RowFor(s.lock.pc.job, s.lock.pc.id), n.0, s.hist[n].rec);
  }

  lemma Awaited(s: State) returns (name: Name)
    requires SendingAt(s, false, false, true)
    ensures AwaitsRow(s, name) && name.0 == s.lock.pc.todo[0]
  {
    name := (s.lock.pc.todo[0], s.lock.pc.stage.seqNo as int);
  }

  lemma AwaitedIsLast(s: State, name: Name, n: Name)
    requires Inv(s) && AwaitsRow(s, name) && n in s.hist && n.0 == name.0
    ensures n.1 <= name.1
  {
    InvParts(s);
    AwaitedIsWritten(s, name);
    hide Inv, FilesOk, HistOk, SendsOk, LiveOk, RowsOk, ReceiptsOk, PcOk, AwaitsRow, In;
  }

  lemma InsertedReaches(rows: Table, rows': Table, name: Name, row: Row, a: AgentId, r: Record)
    requires rows' == InsertOrReplace(rows, name, row) && !Reached(rows, a, r) && (name.0 == a ==> r.seqNo <= name.1)
    ensures Reached(rows', a, r) <==> name.0 == a && (r.from == "" || row.from == r.from)
  {
    assert name in rows' && rows'[name] == row;
    assert forall m :: m in rows' && m != name ==> m in rows && rows'[m] == rows[m];
  }

  /** A record that the fast path hides is still hidden after the next step unless that is a later row of its
      mailbox and sender or the rebuild of an open. Such a row ends the hiding, and so does a rebuild that
      finds no two live records under one key. */
  lemma HidingEndsExactly(s: State, st: Step, n: Name)
    requires Inv(s) && Enabled(s, st) && n in s.hist && !Reached(s.disk.rows, n.0, s.hist[n].rec)
    ensures n in Apply(s, st).hist && Apply(s, st).hist[n] == s.hist[n]
    ensures !st.RebuildIndex? ==> (Reached(Apply(s, st).disk.rows, n.0, s.hist[n].rec) <==> RowPasses(s, st, n))
    ensures st.RebuildIndex? && LiveKeysDiffer(s) && IsLive(s, n) ==> Reached(Apply(s, st).disk.rows, n.0, s.hist[n].rec)
  {
    StepExtends(s, st);
    InvParts(s);
    hide Inv, In, HistOk, Enabled, Apply, Reached, LiveKeysDiffer, FilesOk, SendsOk, LiveOk, RowsOk, ReceiptsOk, PcOk, SeqOf;
    LiveSeq(s, n);
    if st.InsertRow? {
      CanInsert(s);
      InsertReveals(s, n);
    } else if st.RebuildIndex? {
      CanBuild(s, st.order);
      if LiveKeysDiffer(s) && IsLive(s, n) {
        RebuildReveals(s, st.order, n);
      }
    } else {
      RowsStay(s, st);
    }
  }

  lemma CanInsert(s: State)
    requires Enabled(s, InsertRow)
    ensures SendingAt(s, false, false, true) && Apply(s, InsertRow) == DoInsertRow(s)
  {
    hide SendingAt, DoInsertRow;
  }

  lemma CanBuild(s: State, order: seq<AgentId>)
    requires Enabled(s, RebuildIndex(order))
    ensures CanRebuild(s, order) && Apply(s, RebuildIndex(order)) == DoRebuild(s, order)
  {
    hide CanRebuild, DoRebuild;
  }

  lemma LiveSeq(s: State, n: Name)
    requires HistOk(s) && n in s.hist
    ensures s.hist[n].rec.seqNo == n.1
  {
    hide Named, Kept, SeqOf, WellFormed;
  }

  lemma RowsStay(s: State, st: Step)
    requires Enabled(s, st) && !st.InsertRow? && !st.RebuildIndex?
    ensures Apply(s, st).disk.rows == s.disk.rows
  {
    hide CanBeginSend, CanArchive, CanWriteCounter, MaxIdOver, Truncated, Encoding, FileOf, SeqOf;
  }

  lemma RebuildReveals(s: State, order: seq<AgentId>, n: Name)
    requires HistOk(s) && LiveKeysDiffer(s) && CanRebuild(s, order) && IsLive(s, n) && s.hist[n].rec.seqNo == n.1
    ensures Reached(DoRebuild(s, order).disk.rows, n.0, s.hist[n].rec)
  {
    RebuildCovers(s, order);
    hide HistOk, LiveKeysDiffer, In, InsertSeq, Entries, Lists;
    var rows := DoRebuild(s, order).disk.rows;
    assert n in rows && rows[n] == RowOf(s.hist[n].rec);
  }

  ghost predicate NeverRevealed(s: State, steps: seq<Step>, n: Name)
    requires Legal(s, steps)
    decreases steps
  {
    steps == []
    || (!RowPasses(s, steps[0], n) && !steps[0].RebuildIndex? && NeverRevealed(Apply(s, steps[0]), steps[1..], n))
  }

  /** Until such a step the record stays hidden, whatever else happens. */
  lemma {:induction false} StaysHidden(s: State, steps: seq<Step>, n: Name)
    requires Inv(s) && n in s.hist && !Reached(s.disk.rows, n.0, s.hist[n].rec)
    requires Legal(s, steps) && NeverRevealed(s, steps, n)
    ensures var t := Run(s, steps);
            n in t.hist && t.hist[n] == s.hist[n] && !Reached(t.disk.rows, n.0, t.hist[n].rec)
    decreases steps
  {
    hide Inv, Enabled, Apply, Reached, RowPasses;
    if steps != [] {
      StepKeeps(s, steps[0]);
      HidingEndsExactly(s, steps[0], n);
      StaysHidden(Apply(s, steps[0]), steps[1..], n);
    }
  }

  // ---- Runs ----

  lemma {:induction false} PrefixOfRun(s: State, steps: seq<Step>, k: nat)
    requires Legal(s, steps) && GuardedIndex(s, steps) && k <= |steps|
    ensures Legal(s, steps[..k]) && GuardedIndex(s, steps[..k])
    decreases k
  {
    hide Enabled, Apply, CoverGuard;
    if k > 0 {
      PrefixOfRun(Apply(s, steps[0]), steps[1..], k - 1);
      assert steps[..k][0] == steps[0] && steps[..k][1..] == steps[1..][..k - 1];
    }
  }

  /** In every state of a guarded run each live record is reached or awaits its row, and the fast path is
      exact for a mailbox exactly when none of its records does. */
  lemma WaitFastPathRefinesScan(steps: seq<Step>, a: AgentId)
    requires Legal(INIT, steps) && GuardedIndex(INIT, steps)
    ensures var s := Run(INIT, steps);
            && (forall r :: r in RecordsOf(s.disk.logs, a) ==> Reached(s.disk.rows, a, r) || AwaitsRow(s, (a, r.seqNo)))
            && (IndexReaches(s.disk.rows, a, RecordsOf(s.disk.logs, a)) <==> forall n :: AwaitsRow(s, n) ==> n.0 != a)
  {
    var s := Run(INIT, steps);
    GuardedState(steps);
    hide Inv, Legal, Run, GuardedIndex, Covered, AwaitsRow, Reached, RecordsOf, IndexReaches;
    FastPathExactly(s, a);
    forall r | r in RecordsOf(s.disk.logs, a) ensures Reached(s.disk.rows, a, r) || AwaitsRow(s, (a, r.seqNo)) {
      ReachedUnlessAwaiting(s, a, r);
    }
  }

  lemma GuardedState(steps: seq<Step>)
    requires Legal(INIT, steps) && GuardedIndex(INIT, steps)
    ensures Inv(Run(INIT, steps)) && Covered(Run(INIT, steps))
  {
    hide Inv, Legal, Run, GuardedIndex, Covered, SingleInv;
    InitOk();
    InitSingle();
    RunKeeps(INIT, steps);
    RunCovers(INIT, steps);
  }

  /** s is the state of the run after k steps. */
  ghost predicate OnRun(steps: seq<Step>, k: nat, s: State) {
    k <= |steps| && Legal(INIT, steps[..k]) && Run(INIT, steps[..k]) == s
  }

  /** The check reads the index in state s and, if it does not skip, the log in a state t that is not
      earlier. */
  ghost predicate Sees(steps: seq<Step>, c: Check, s: State, t: State) {
    && (exists k: nat, m: nat :: k <= m && OnRun(steps, k, s) && OnRun(steps, m, t))
    && c == Check(s.disk.rows, t.disk.logs)
  }

  /** A wait beside the sends of a guarded run: when it times out, then at each of its checks, the last
      one included, either the log it read held no match, or every matching record that was in the log
      when it read the index was the pending record of a send that had not returned. */
  lemma WaitMissesOnlyUnreturned(steps: seq<Step>, a: AgentId, f: Filter, checks: seq<Check>, j: nat, s: State, t: State)
    requires Legal(INIT, steps) && GuardedIndex(INIT, steps) && WaitOutcome(a, f, checks, Timeout)
    requires j < |checks| && Sees(steps, checks[j], s, t)
    ensures || NoMatch(t.disk.logs, a, f)
            || forall r :: r in RecordsOf(s.disk.logs, a) && Passes(r, f) ==>
                 AwaitsRow(s, (a, r.seqNo)) && r == PendingRecord(s.lock.pc)
  {
    var k: nat, m: nat :| k <= m && OnRun(steps, k, s) && OnRun(steps, m, t);
    PrefixOfRun(INIT, steps, k);
    GuardedState(steps[..k]);
    hide Legal, Run, GuardedIndex;
    WaitIsExact(a, f, checks[j], s.disk.logs);
    hide Inv, Covered, RecordsOf, Passes, Reached, Misses, NoMatch, Sees;
    if !NoMatch(t.disk.logs, a, f) {
      forall r | r in RecordsOf(s.disk.logs, a) && Passes(r, f)
        ensures AwaitsRow(s, (a, r.seqNo)) && r == PendingRecord(s.lock.pc)
      {
        ReachedUnlessAwaiting(s, a, r);
        PendingIsAwaited(s, a, r);
      }
    }
  }

  lemma PendingIsAwaited(s: State, a: AgentId, r: Record)
    requires Inv(s) && r in RecordsOf(s.disk.logs, a) && AwaitsRow(s, (a, r.seqNo))
    ensures r == PendingRecord(s.lock.pc)
  {
    InvParts(s);
    LiveName(s, a, r);
    AwaitedIsNewest(s, (a, r.seqNo));
    hide Inv, HistOk, AwaitsRow, In;
  }
}
