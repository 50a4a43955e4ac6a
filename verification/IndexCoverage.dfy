/** How far the derived index agrees with the logs. A live record has its row unless the row is just
    about to be inserted, a crash split its append from its insert, or an insert evicted it; exactly
    these steps break the cover, and exactly the uncovered records can be missed by a waiter. The
    answers to dedup checks need less: while no key goes to several recipients they equal the log
    scan's whatever dies when. */
module IndexCoverage {
  import opened Text
  import opened Codec
  import opened CodecLaws
  import opened Storage
  import opened StorageLaws
  import opened Compaction
  import opened Protocol
  import opened Invariant
  import opened Preservation
  import opened Runs
  import opened KeyedSends
  import opened Dedup

  ghost predicate Covered(s: State) {
    forall n :: IsLive(s, n) ==> n in s.disk.rows || AwaitsRow(s, n)
  }

  // ---- Exactly when a step keeps the index covering ----

  /** No two live records bear one key. */
  ghost predicate LiveKeysDiffer(s: State) {
    forall m, n :: IsLive(s, m) && IsLive(s, n) && SameKey(s.hist[m].rec, s.hist[n].rec) ==> m == n
  }

  /** The insert under way replaces the row of another live record. */
  ghost predicate Evicts(s: State, n: Name) {
    && s.lock.Held? && s.lock.pc.Sending? && s.lock.pc.job.key.Some? && !AwaitsRow(s, n)
    && IsLive(s, n) && RowHasKey(s.disk.rows, n, s.lock.pc.job.key.value)
  }

  /** What keeps the index covering: nobody dies between an append and its row, an insert evicts no
      live record's row, and a rebuild finds no two live records under one key. */
  ghost predicate CoverKept(s: State, st: Step) {
    && (st.Kill? || st.PowerLoss? ==> forall n :: !AwaitsRow(s, n))
    && (st.InsertRow? ==> forall n :: !Evicts(s, n))
    && (st.RebuildIndex? ==> LiveKeysDiffer(s))
  }

  lemma AppendCovered(s: State, t: State, name: Name)
    requires Covered(s) && (forall n :: !AwaitsRow(s, n)) && AwaitsRow(t, name) && t.disk.rows == s.disk.rows
    requires forall n :: IsLive(t, n) <==> n == name || IsLive(s, n)
    ensures Covered(t)
  {
    hide In, AwaitsRow;
  }

  lemma AppendCovers(s: State)
    requires Inv(s) && Covered(s) && SendingAt(s, false, true, false)
    ensures Covered(DoAppend(s))
  {
    var t := DoAppend(s);
    var a, rec := s.lock.pc.todo[0], PendingRecord(s.lock.pc);
    hide Inv, In, Appended, Titled, Recorded, Covered, DoAppend, AwaitsRow;
    AppendChange(s);
    NoneAwaits(s, AppendRecord);
    HistoryIsTitled(s);
    AppendedIn(s.disk.logs, t.disk.logs, s.hist, t.hist, a, rec, s.sends);
    AppendCovered(s, t, (a, rec.seqNo));
  }

  lemma HistoryIsTitled(s: State)
    requires Inv(s)
    ensures Titled(s.hist)
  {
    InvParts(s);
    hide Inv, HistOk;
    RecordedTitled(s);
  }

  /** What an insert does to the cover. */
  lemma InsertChange(s: State, name: Name)
    requires Inv(s) && SendingAt(s, false, false, true) && AwaitsRow(s, name)
    ensures var t := DoInsertRow(s);
            && t.disk.rows == InsertOrReplace(s.disk.rows, name, RowFor(s.lock.pc.job, s.lock.pc.id))
            && t.disk.logs == s.disk.logs && t.hist == s.hist && (forall n :: !AwaitsRow(t, n))
    ensures forall n :: AwaitsRow(s, n) <==> n == name
  {
    hide Inv, InsertOrReplace;
  }

  /** The insert drops exactly the rows it evicts. */
  lemma InsertDrops(s: State, t: State, name: Name, n: Name)
    requires s.lock.Held? && s.lock.pc.Sending? && (forall m :: AwaitsRow(s, m) <==> m == name)
    requires t.disk.rows == InsertOrReplace(s.disk.rows, name, RowFor(s.lock.pc.job, s.lock.pc.id))
    requires IsLive(s, n) && (n in s.disk.rows || n == name)
    ensures n in t.disk.rows <==> !Evicts(s, n)
  {
    hide In, AwaitsRow;
  }

  lemma InsertCoversExactly(s: State)
    requires Inv(s) && Covered(s) && SendingAt(s, false, false, true)
    ensures Covered(DoInsertRow(s)) <==> forall n :: !Evicts(s, n)
  {
    var t := DoInsertRow(s);
    var name := (s.lock.pc.todo[0], s.lock.pc.stage.seqNo as int);
    assert AwaitsRow(s, name);
    InsertChange(s, name);
    hide Inv, DoInsertRow, In, AwaitsRow, RowFor, SendingAt;
    forall n | IsLive(s, n) ensures n in t.disk.rows <==> !Evicts(s, n) {
      InsertDrops(s, t, name, n);
    }
    forall n ensures Evicts(s, n) ==> IsLive(s, n) {
      EvictedIsLive(s, n);
    }
    hide Evicts, InsertOrReplace;
    if forall n :: !Evicts(s, n) {
      assert forall n :: IsLive(t, n) ==> IsLive(s, n);
    } else {
      var n :| Evicts(s, n);
      assert IsLive(t, n) && n !in t.disk.rows && !AwaitsRow(t, n);
    }
  }

  lemma EvictedIsLive(s: State, n: Name)
    ensures Evicts(s, n) ==> IsLive(s, n)
  {
    hide In;
  }

  lemma RewriteShrinks(s: State)
    requires Inv(s) && CanRewrite(s)
    ensures forall n :: In(DoRewrite(s).disk.logs, s.hist, n) ==> IsLive(s, n)
  {
    InvParts(s);
    var moved := RecordsIn(FileOf(s.disk.logs, s.lock.pc.agent)[..s.lock.pc.boundary]);
    assert Named(s.disk.logs, s.hist);
    hide Inv, FilesOk, HistOk, PcOk, RecordsIn, In, Shrunk, Named, DoRewrite;
    RewriteFiles(s);
    ShrunkIn(s.disk.logs, DoRewrite(s).disk.logs, s.disk.archives, s.lock.pc.agent, moved, s.hist);
  }

  lemma RewriteCovers(s: State)
    requires Inv(s) && Covered(s) && CanRewrite(s)
    ensures Covered(DoRewrite(s))
  {
    RewriteShrinks(s);
    CompactingAwaitsNone(s);
    hide Inv, In, FileOf, AwaitsRow;
  }

  /** Live records under different keys never compete for a row. */
  lemma LiveRowsDoNotConflict(s: State, order: seq<AgentId>)
    requires HistOk(s) && LiveKeysDiffer(s)
    ensures NoConflict(Entries(order, s.disk.logs))
  {
    var es := Entries(order, s.disk.logs);
    hide Entries, RecordsOf, NamesOk, Kept, LiveKeysDiffer;
    forall i | 0 <= i < |es|
      ensures In(s.disk.logs, s.hist, es[i].0) && es[i].1 == RowOf(s.hist[es[i].0].rec)
    {
      var k := EntrySource(order, s.disk.logs, i);
      assert RecordsOf(s.disk.logs, es[i].0.0)[k] in RecordsOf(s.disk.logs, es[i].0.0);
    }
    hide In, Named;
    forall i, j | 0 <= i < j < |es| && es[i].1.dedup.Some? && es[i].1.dedup == es[j].1.dedup
      ensures es[i].0 == es[j].0
    {
      LiveKeysApart(s, es[i].0, es[j].0);
    }
  }

  lemma LiveKeysApart(s: State, m: Name, n: Name)
    requires LiveKeysDiffer(s) && IsLive(s, m) && IsLive(s, n) && SameKey(s.hist[m].rec, s.hist[n].rec)
    ensures m == n
  {
    hide In;
  }

  /** After such a rebuild every live record has its row. */
  lemma RebuildCovers(s: State, order: seq<AgentId>)
    requires HistOk(s) && LiveKeysDiffer(s) && Lists(order, s.disk.logs)
    ensures forall n :: IsLive(s, n) ==>
              n in InsertSeq(Entries(order, s.disk.logs))
              && InsertSeq(Entries(order, s.disk.logs))[n] == RowOf(s.hist[n].rec)
  {
    LiveRowsDoNotConflict(s, order);
    NoRecordsOutside(s.disk.logs);
    hide Entries, InsertSeq, RecordsOf, NoConflict, SeqOf, WellFormed, LiveKeysDiffer, Named, Kept;
    var es := Entries(order, s.disk.logs);
    forall n | IsLive(s, n) ensures n in InsertSeq(es) && InsertSeq(es)[n] == RowOf(s.hist[n].rec) {
      var rs := RecordsOf(s.disk.logs, n.0);
      var i :| 0 <= i < |rs| && rs[i] == s.hist[n].rec;
      InEntries(order, s.disk.logs, n.0, i);
      var k :| 0 <= k < |es| && es[k] == ((n.0, rs[i].seqNo), RowOf(rs[i]));
      InsertSeqKeepsAll(es, k);
    }
  }

  lemma RebuiltAreLive(s: State, order: seq<AgentId>)
    requires HistOk(s)
    ensures forall n :: n in InsertSeq(Entries(order, s.disk.logs)) ==>
              IsLive(s, n) && InsertSeq(Entries(order, s.disk.logs))[n] == RowOf(s.hist[n].rec)
  {
    hide InsertSeq, Entries, RecordsOf, NamesOk, Kept;
    var es := Entries(order, s.disk.logs);
    forall n | n in InsertSeq(es) ensures IsLive(s, n) && InsertSeq(es)[n] == RowOf(s.hist[n].rec) {
      var k := InsertSeqSource(es, n);
      var i := EntrySource(order, s.disk.logs, k);
      assert RecordsOf(s.disk.logs, n.0)[i] in RecordsOf(s.disk.logs, n.0);
    }
  }

  /** A rebuilt index covers the live records exactly when no two of them bear one key. */
  lemma RebuildCoversExactly(s: State, order: seq<AgentId>)
    requires HistOk(s) && Lists(order, s.disk.logs)
    ensures (forall n :: IsLive(s, n) ==> n in InsertSeq(Entries(order, s.disk.logs))) <==> LiveKeysDiffer(s)
  {
    var rows := InsertSeq(Entries(order, s.disk.logs));
    RebuiltAreLive(s, order);
    InsertSeqUnique(Entries(order, s.disk.logs));
    if LiveKeysDiffer(s) {
      RebuildCovers(s, order);
    }
    hide HistOk, InsertSeq, Entries, In, Lists;
    if forall n :: IsLive(s, n) ==> n in rows {
      forall m, n | IsLive(s, m) && IsLive(s, n) && SameKey(s.hist[m].rec, s.hist[n].rec) ensures m == n {
        assert m in rows && n in rows;
      }
    }
  }

  lemma RebuildStep(s: State, order: seq<AgentId>)
    requires Inv(s) && CanRebuild(s, order)
    ensures Covered(DoRebuild(s, order)) <==> LiveKeysDiffer(s)
  {
    InvParts(s);
    RebuildCoversExactly(s, order);
    RebuiltCover(s, order);
    hide Inv, HistOk, InsertSeq, Entries, IsLive, Lists, LiveKeysDiffer, Covered, DoRebuild;
  }

  lemma RebuiltCover(s: State, order: seq<AgentId>)
    requires CanRebuild(s, order)
    ensures Covered(DoRebuild(s, order)) <==> forall n :: IsLive(s, n) ==> n in InsertSeq(Entries(order, s.disk.logs))
  {
    var t := DoRebuild(s, order);
    FreeAwaitsNone(t);
    hide InsertSeq, Entries, In, Lists, AwaitsRow;
    assert forall n :: IsLive(t, n) <==> IsLive(s, n);
  }

  /** Dying between an append and its row leaves a live record without one. */
  lemma DeathCoversExactly(s: State, st: Step)
    requires Inv(s) && Covered(s) && Enabled(s, st) && (st.Kill? || st.PowerLoss?)
    ensures Covered(Apply(s, st)) <==> forall n :: !AwaitsRow(s, n)
  {
    var t := Apply(s, st);
    RecordsStay(s, st);
    DeathFrees(s, st);
    SameIn(s.disk.logs, t.disk.logs, s.hist);
    FreeAwaitsNone(t);
    hide Enabled, Apply, SameFiles;
    if n :| AwaitsRow(s, n) {
      AwaitedIsNewest(s, n);
      hide Inv, In, AwaitsRow;
      assert IsLive(t, n) && n !in t.disk.rows;
    } else {
      hide Inv, In, AwaitsRow;
    }
  }

  /** The record awaiting its row is live, without a row, and the newest of its mailbox. */
  lemma AwaitedIsNewest(s: State, n: Name)
    requires Inv(s) && AwaitsRow(s, n)
    ensures IsLive(s, n) && n !in s.disk.rows && s.hist[n].rec.seqNo == n.1
    ensures s.hist[n].rec == PendingRecord(s.lock.pc) && s.hist[n].send == s.sends
    ensures forall m :: m in s.disk.rows && m.0 == n.0 ==> m.1 < n.1
  {
    InvParts(s);
    hide Inv, FilesOk, HistOk, SendsOk, LiveOk, ReceiptsOk, RowsOk;
    AwaitedIsWritten(s, n);
    hide PcOk, AwaitsRow, In;
    RowsAreOlder(s, n);
  }

  lemma AwaitedIsWritten(s: State, n: Name)
    requires PcOk(s) && AwaitsRow(s, n)
    ensures IsLive(s, n) && IsNewest(s, n) && s.hist[n].send == s.sends && s.hist[n].rec == PendingRecord(s.lock.pc)
  {
    assert SendPcOk(s, s.lock.pc);
    WrittenPc(s);
    hide PcOk, SendPcOk, In, IsNewest;
  }

  lemma RowsAreOlder(s: State, n: Name)
    requires RowsOk(s) && IsNewest(s, n)
    ensures n !in s.disk.rows && forall m :: m in s.disk.rows && m.0 == n.0 ==> m.1 < n.1
  {
    hide UniqueKeys, RowFits;
    forall m | m in s.disk.rows && m.0 == n.0 ensures m.1 < n.1 {
      assert m in s.hist && m != n;
    }
  }

  /** The steps that change neither records, nor rows, nor history. */
  lemma QuietCovers(s: State, st: Step)
    requires Inv(s) && Covered(s) && Enabled(s, st) && !st.Kill? && !st.PowerLoss?
    requires !st.AppendRecord? && !st.InsertRow? && !st.RewriteLog? && !st.RebuildIndex?
    ensures Covered(Apply(s, st))
  {
    var t := Apply(s, st);
    RecordsStay(s, st);
    NoneAwaits(s, st);
    SameIn(s.disk.logs, t.disk.logs, s.hist);
    hide Inv, Enabled, Apply, In, SameFiles, AwaitsRow;
  }

  /** A step keeps the index covering the live logs exactly when it is none of the three. */
  lemma StepCoversExactly(s: State, st: Step)
    requires Inv(s) && Covered(s) && Enabled(s, st)
    ensures Covered(Apply(s, st)) <==> CoverKept(s, st)
  {
    hide Inv, Covered, AwaitsRow, Evicts, LiveKeysDiffer, SendingAt, DoAppend, DoInsertRow, CanRewrite, DoRewrite,
      CanRebuild, DoRebuild, CanBeginSend, CanArchive, CanTruncate, CanWriteCounter, CanLosePower, DoLosePower;
    if st.AppendRecord? {
      AppendCovers(s);
    } else if st.InsertRow? {
      InsertCoversExactly(s);
    } else if st.RewriteLog? {
      RewriteCovers(s);
    } else if st.RebuildIndex? {
      RebuildStep(s, st.order);
    } else if st.Kill? || st.PowerLoss? {
      DeathCoversExactly(s, st);
    } else {
      QuietCovers(s, st);
    }
  }

  // ---- While no key goes to several recipients ----

  /** A keyed send writes at most one record. */
  ghost predicate SingleKeyed(s: State) {
    && (forall m, n :: m in s.hist && n in s.hist && s.hist[m].send == s.hist[n].send && s.hist[m].key.Some? ==> m == n)
    && (s.lock.Held? && s.lock.pc.Sending? && s.lock.pc.job.key.Some? ==>
          && |s.lock.pc.todo| <= 1
          && (s.lock.pc.todo != [] && !s.lock.pc.stage.Written? ==>
                forall n :: n in s.hist ==> s.hist[n].send != s.sends))
  }

  /** Rows under the running send's key are its own. */
  ghost predicate OwnRows(s: State) {
    s.lock.Held? && s.lock.pc.Sending? && s.lock.pc.job.key.Some? ==>
      forall n :: RowHasKey(s.disk.rows, n, s.lock.pc.job.key.value) ==> n in s.hist && s.hist[n].send == s.sends
  }

  /** A row under a live record's key is that record's row. */
  ghost predicate KeyRows(s: State) {
    forall n, m, key :: IsLive(s, n) && s.hist[n].rec.dedup == Some(key) && RowHasKey(s.disk.rows, m, key) ==> m == n
  }

  ghost predicate SingleInv(s: State) {
    SingleKeyed(s) && OwnRows(s) && KeyRows(s)
  }

  /** No keyed send has several recipients. */
  ghost predicate SingleGuard(st: Step) {
    st.BeginSend? && st.job.key.Some? ==> |st.recipients| == 1
  }

  lemma LiveBearersDiffer(s: State)
    requires HistOk(s) && LiveOk(s) && SingleKeyed(s)
    ensures LiveKeysDiffer(s)
  {
    hide RecordsOf, Named, Kept, Ascends, IdsBounded, IdsShared, SeqOf, WellFormed;
  }

  lemma BeginSingle(s: State, pid: nat, job: Job, rs: seq<AgentId>)
    requires SendsOk(s) && SingleInv(s) && CanBeginSend(s, job, rs) && (job.key.Some? ==> |rs| == 1)
    ensures SingleInv(DoBeginSend(s, pid, job, rs))
  {
    hide In, JobOk, RecipientsOk, LogHasKey, RowHasKey;
  }

  /** No row bears the key of a send that has written nothing. */
  lemma NoRowsYet(s: State, key: string, m: Name)
    requires SingleKeyed(s) && OwnRows(s) && SendingAt(s, false, true, false) && s.lock.pc.job.key == Some(key)
    ensures !RowHasKey(s.disk.rows, m, key)
  {
    hide RowHasKey;
  }

  lemma AppendKeyRows(s: State, t: State, name: Name, m: Name, n: Name, key: string)
    requires KeyRows(s) && t.disk.rows == s.disk.rows && name !in s.hist
    requires name in t.hist && t.hist == s.hist[name := t.hist[name]] && IsLive(t, n) && (n == name || IsLive(s, n))
    requires t.hist[n].rec.dedup == Some(key) && RowHasKey(t.disk.rows, m, key)
    requires n == name ==> !RowHasKey(s.disk.rows, m, key)
    ensures m == n
  {
    hide RecordsOf, RowHasKey;
  }

  lemma AppendSingle(s: State)
    requires Inv(s) && SingleInv(s) && SendingAt(s, false, true, false)
    ensures SingleInv(DoAppend(s))
  {
    var t := DoAppend(s);
    var name := (s.lock.pc.todo[0], PendingRecord(s.lock.pc).seqNo);
    AppendPlace(s);
    AppendNames(s);
    SingleAppended(s, t, name);
    hide Inv, IsLive, DoAppend, PendingRecord, RowHasKey, KeyRows, SendingAt;
    KeyRowsAppended(s, t, name);
  }

  lemma AppendNames(s: State)
    requires Inv(s) && SendingAt(s, false, true, false)
    ensures var t := DoAppend(s);
            var name := (s.lock.pc.todo[0], PendingRecord(s.lock.pc).seqNo);
            t.disk.rows == s.disk.rows && forall n :: IsLive(t, n) <==> n == name || IsLive(s, n)
  {
    AppendChange(s);
    HistoryIsTitled(s);
    hide Inv, In, Appended, DoAppend, SendingAt, AwaitsRow, PendingRecord, Recorded, Titled;
    AppendedIn(s.disk.logs, DoAppend(s).disk.logs, s.hist, DoAppend(s).hist, s.lock.pc.todo[0],
               PendingRecord(s.lock.pc), s.sends);
  }

  lemma KeyRowsAppended(s: State, t: State, name: Name)
    requires SingleInv(s) && SendingAt(s, false, true, false) && t.disk.rows == s.disk.rows && name !in s.hist
    requires name in t.hist && t.hist == s.hist[name := t.hist[name]] && t.hist[name].rec.dedup == StoredKey(s.lock.pc.job.key)
    requires forall n :: IsLive(t, n) <==> n == name || IsLive(s, n)
    ensures KeyRows(t)
  {
    hide RecordsOf, RowHasKey, SingleKeyed, OwnRows;
    forall n, m, key | IsLive(t, n) && t.hist[n].rec.dedup == Some(key) && RowHasKey(t.disk.rows, m, key) ensures m == n {
      if s.lock.pc.job.key == Some(key) {
        NoRowsYet(s, key, m);
      }
      AppendKeyRows(s, t, name, m, n, key);
    }
  }

  lemma SingleAppended(s: State, t: State, name: Name)
    requires SingleKeyed(s) && OwnRows(s) && SendsOk(s) && t.disk.rows == s.disk.rows
    requires s.lock.Held? && s.lock.pc.Sending? && s.lock.pc.todo != [] && !s.lock.pc.stage.Written?
    requires t.lock.Held? && t.lock.pc.Sending? && t.lock.pc.job == s.lock.pc.job && t.lock.pc.todo == s.lock.pc.todo
    requires t.lock.pc.stage.Written? && t.sends == s.sends && name !in s.hist
    requires name in t.hist && t.hist[name].send == s.sends && t.hist[name].key == s.lock.pc.job.key
    requires t.hist == s.hist[name := t.hist[name]]
    requires forall n :: n in s.hist && s.hist[n].send == s.sends ==> s.hist[n].key == s.lock.pc.job.key
    ensures SingleKeyed(t) && OwnRows(t)
  {
    hide RowHasKey, SameKey;
  }

  lemma AppendPlace(s: State)
    requires Inv(s) && SendingAt(s, false, true, false)
    ensures var t := DoAppend(s);
            var name := (s.lock.pc.todo[0], PendingRecord(s.lock.pc).seqNo);
            && name !in s.hist && t.hist == s.hist[name := Entry(s.sends, PendingRecord(s.lock.pc), s.lock.pc.job.key)]
            && t.sends == s.sends && t.lock.Held? && t.lock.pc.Sending? && t.lock.pc.job == s.lock.pc.job
            && t.lock.pc.todo == s.lock.pc.todo && t.lock.pc.stage.Written? && !s.lock.pc.stage.Written?
            && PendingRecord(s.lock.pc).dedup == StoredKey(s.lock.pc.job.key)
            && SendsOk(s) && forall n :: n in s.hist && s.hist[n].send == s.sends ==> s.hist[n].key == s.lock.pc.job.key
  {
    InvParts(s);
    hide Inv, FilesOk, HistOk, SendsOk, LiveOk, RowsOk, ReceiptsOk;
    assert SendPcOk(s, s.lock.pc);
    SendIsRecorded(s);
    hide SendPcOk, PcOk, Encoding, FileOf;
  }

  lemma LiveIsClean(s: State, n: Name)
    requires HistOk(s) && IsLive(s, n)
    ensures s.hist[n].rec.dedup != Some("-")
  {
    hide RecordsOf, Named, Kept, SeqOf;
    assert WellFormed(s.hist[n].rec);
  }

  lemma InsertKeyRows(s: State, t: State, name: Name, m: Name, n: Name, key: string)
    requires LiveKeysDiffer(s) && KeyRows(s) && IsLive(s, name) && IsLive(s, n)
    requires s.lock.Held? && s.lock.pc.Sending? && s.hist[name].rec.dedup == StoredKey(s.lock.pc.job.key)
    requires t.disk.rows == InsertOrReplace(s.disk.rows, name, RowFor(s.lock.pc.job, s.lock.pc.id))
    requires s.hist[n].rec.dedup == Some(key) && key != "-" && RowHasKey(t.disk.rows, m, key)
    ensures m == n
  {
    hide RecordsOf, LiveKeysDiffer;
    if m == name {
      LiveKeysApart(s, m, n);
    } else {
      assert RowHasKey(s.disk.rows, m, key);
    }
  }

  lemma InsertSingle(s: State)
    requires Inv(s) && SingleInv(s) && SendingAt(s, false, false, true)
    ensures SingleInv(DoInsertRow(s))
  {
    var t := DoInsertRow(s);
    var name := (s.lock.pc.todo[0], s.lock.pc.stage.seqNo as int);
    assert AwaitsRow(s, name);
    InsertChange(s, name);
    AwaitedIsNewest(s, name);
    InvParts(s);
    LiveBearersDiffer(s);
    InsertPlace(s, t, name);
    hide Inv, DoInsertRow, AwaitsRow, RecordsOf, HistOk, LiveKeysDiffer, RowHasKey, InsertOrReplace, SendingAt, LiveOk;
    forall n, m, key | IsLive(t, n) && t.hist[n].rec.dedup == Some(key) && RowHasKey(t.disk.rows, m, key) ensures m == n {
      LiveIsClean(s, n);
      InsertKeyRows(s, t, name, m, n, key);
    }
  }

  lemma InsertPlace(s: State, t: State, name: Name)
    requires SingleKeyed(s) && OwnRows(s) && SendingAt(s, false, false, true) && t == DoInsertRow(s)
    requires name == (s.lock.pc.todo[0], s.lock.pc.stage.seqNo as int)
    requires name in s.hist && s.hist[name].send == s.sends
    ensures SingleKeyed(t) && OwnRows(t)
  {
  }

  lemma RewriteSingle(s: State)
    requires Inv(s) && SingleInv(s) && CanRewrite(s)
    ensures SingleInv(DoRewrite(s))
  {
    RewriteShrinks(s);
    hide Inv, In, FileOf, RowHasKey;
  }

  lemma RebuildSingle(s: State, order: seq<AgentId>)
    requires Inv(s) && SingleInv(s) && CanRebuild(s, order)
    ensures SingleInv(DoRebuild(s, order))
  {
    var t := DoRebuild(s, order);
    InvParts(s);
    LiveBearersDiffer(s);
    RebuiltAreLive(s, order);
    hide Inv, HistOk, LiveOk, InsertSeq, Entries, RecordsOf, Lists, LiveKeysDiffer;
    forall n, m, key | IsLive(t, n) && t.hist[n].rec.dedup == Some(key) && RowHasKey(t.disk.rows, m, key) ensures m == n {
      LiveKeysApart(s, m, n);
    }
  }

  /** The steps that change neither records, nor rows, nor history, nor start a send. */
  lemma QuietSingle(s: State, st: Step)
    requires Inv(s) && SingleInv(s) && Enabled(s, st)
    requires !st.BeginSend? && !st.AppendRecord? && !st.InsertRow? && !st.RewriteLog? && !st.RebuildIndex?
    ensures SingleInv(Apply(s, st))
  {
    var t := Apply(s, st);
    RecordsStay(s, st);
    SameIn(s.disk.logs, t.disk.logs, s.hist);
    PlaceStays(s, st);
    hide Inv, Enabled, Apply, In, SameFiles, RowHasKey;
  }

  lemma PlaceStays(s: State, st: Step)
    requires Enabled(s, st)
    requires !st.BeginSend? && !st.AppendRecord? && !st.InsertRow? && !st.RewriteLog? && !st.RebuildIndex?
    ensures var t := Apply(s, st);
            && t.sends == s.sends
            && (t.lock.Held? && t.lock.pc.Sending? ==>
                  && s.lock.Held? && s.lock.pc.Sending? && t.lock.pc.job == s.lock.pc.job && t.lock.pc.todo == s.lock.pc.todo
                  && (t.lock.pc.stage.Written? <==> s.lock.pc.stage.Written?))
  {
    hide CompactPoint, Lists, Encoding, MaxIdOver, SeqOf, FileOf, Truncated, JobOk, RecipientsOk;
  }

  /** Kills and power losses included, every step under the one guard keeps it. */
  lemma StepSingle(s: State, st: Step)
    requires Inv(s) && SingleInv(s) && Enabled(s, st) && SingleGuard(st)
    ensures SingleInv(Apply(s, st))
  {
    if st.BeginSend? {
      InvParts(s);
      hide Inv;
      BeginSingle(s, st.pid, st.job, st.recipients);
    } else if st.AppendRecord? {
      AppendSingle(s);
    } else if st.InsertRow? {
      InsertSingle(s);
    } else if st.RewriteLog? {
      RewriteSingle(s);
    } else if st.RebuildIndex? {
      RebuildSingle(s, st.order);
    } else {
      QuietSingle(s, st);
    }
  }

  ghost predicate SingleSteps(steps: seq<Step>) {
    forall i :: 0 <= i < |steps| ==> SingleGuard(steps[i])
  }

  lemma {:induction false} RunSingle(s: State, steps: seq<Step>)
    requires Inv(s) && SingleInv(s) && Legal(s, steps) && SingleSteps(steps)
    ensures SingleInv(Run(s, steps))
    decreases steps
  {
    hide Inv, Enabled, Apply, SingleInv, SingleGuard;
    if steps != [] {
      StepKeeps(s, steps[0]);
      StepSingle(s, steps[0]);
      assert SingleSteps(steps[1..]);
      RunSingle(Apply(s, steps[0]), steps[1..]);
    }
  }

  lemma InitSingle()
    ensures SingleInv(INIT) && Covered(INIT)
  {
    hide RecordsOf;
  }

  // ---- The cover over runs ----

  ghost predicate CoverInv(s: State) {
    Covered(s) && SingleInv(s)
  }

  /** No keyed send has several recipients, and no process dies between an append and its row. */
  ghost predicate CoverGuard(s: State, st: Step) {
    SingleGuard(st) && (st.Kill? || st.PowerLoss? ==> forall n :: !AwaitsRow(s, n))
  }

  ghost predicate GuardedIndex(s: State, steps: seq<Step>)
    requires Legal(s, steps)
    decreases steps
  {
    steps == [] || (CoverGuard(s, steps[0]) && GuardedIndex(Apply(s, steps[0]), steps[1..]))
  }

  lemma RowIsOwn(s: State, key: string, n: Name, name: Name)
    requires SingleKeyed(s) && OwnRows(s) && s.lock.Held? && s.lock.pc.Sending? && s.lock.pc.job.key == Some(key)
    requires RowHasKey(s.disk.rows, n, key) && name in s.hist && s.hist[name].send == s.sends && s.hist[name].key == Some(key)
    ensures n == name
  {
  }

  lemma AwaitedKey(s: State, name: Name)
    requires Inv(s) && AwaitsRow(s, name)
    ensures name in s.hist && s.hist[name].send == s.sends && s.hist[name].key == s.lock.pc.job.key
  {
    InvParts(s);
    hide Inv, FilesOk, HistOk, SendsOk, LiveOk, RowsOk, ReceiptsOk;
    assert SendPcOk(s, s.lock.pc);
    WrittenPc(s);
    hide PcOk, SendPcOk, RecordsOf, IsNewest;
  }

  /** While no key goes to several recipients an insert evicts nothing. */
  lemma NothingEvicted(s: State)
    requires Inv(s) && SingleInv(s) && SendingAt(s, false, false, true)
    ensures forall n :: !Evicts(s, n)
  {
    var name := (s.lock.pc.todo[0], s.lock.pc.stage.seqNo as int);
    assert AwaitsRow(s, name);
    AwaitedKey(s, name);
    var key := s.lock.pc.job.key;
    if key.Some? {
      forall n | RowHasKey(s.disk.rows, n, key.value) ensures n == name {
        RowIsOwn(s, key.value, n, name);
      }
    }
    hide Inv, SingleInv, SendingAt, In, AwaitsRow, RowHasKey;
  }

  lemma StepCovers(s: State, st: Step)
    requires Inv(s) && CoverInv(s) && Enabled(s, st) && CoverGuard(s, st)
    ensures CoverInv(Apply(s, st))
  {
    hide Inv, Covered, AwaitsRow, LiveKeysDiffer, Evicts, HistOk, LiveOk, FilesOk, SendsOk, RowsOk, ReceiptsOk, PcOk,
      Apply, SendingAt, CanRewrite, CanRebuild, CanBeginSend, CanArchive, CanTruncate, CanWriteCounter, CanLosePower,
      SingleKeyed, OwnRows, KeyRows;
    StepSingle(s, st);
    StepCoversExactly(s, st);
    InvParts(s);
    if st.InsertRow? {
      NothingEvicted(s);
    }
    LiveBearersDiffer(s);
  }

  /** In every guarded run the index covers the live logs. */
  lemma {:induction false} RunCovers(s: State, steps: seq<Step>)
    requires Inv(s) && CoverInv(s) && Legal(s, steps) && GuardedIndex(s, steps)
    ensures CoverInv(Run(s, steps))
    decreases steps
  {
    hide Inv, Enabled, Apply, CoverInv, CoverGuard;
    if steps != [] {
      StepKeeps(s, steps[0]);
      StepCovers(s, steps[0]);
      RunCovers(Apply(s, steps[0]), steps[1..]);
    }
  }

  // ---- The rebuilt index ----

  lemma RestrictedEqual(rows: Table, rebuilt: Table, restricted: Table)
    requires forall n :: n in restricted ==> n in rebuilt && n in rows && restricted[n] == rows[n]
    requires forall n :: n in rebuilt && n in rows ==> n in restricted
    ensures rebuilt == restricted <==> forall n :: n in rebuilt ==> n in rows && rows[n] == rebuilt[n]
  {
    if forall n :: n in rebuilt ==> n in rows && rows[n] == rebuilt[n] {
      assert rebuilt.Keys == restricted.Keys;
    }
  }

  lemma RebuiltRows(s: State, order: seq<AgentId>)
    requires Inv(s) && SingleInv(s) && Lists(order, s.disk.logs)
    ensures var rebuilt := InsertSeq(Entries(order, s.disk.logs));
            && (forall n :: n in rebuilt <==> IsLive(s, n))
            && (forall n :: n in rebuilt && n in s.disk.rows ==>
                  (s.disk.rows[n] == rebuilt[n] <==> s.disk.rows[n].dedup != Some("-")))
  {
    var rebuilt := InsertSeq(Entries(order, s.disk.logs));
    InvParts(s);
    LiveBearersDiffer(s);
    RebuildCovers(s, order);
    RebuiltAreLive(s, order);
    hide Inv, SingleInv, InsertSeq, Entries, Lists, FilesOk, SendsOk, ReceiptsOk, PcOk, LiveOk, LiveKeysDiffer, HistOk,
      RowsOk, In;
    forall n | IsLive(s, n) && n in s.disk.rows
      ensures s.disk.rows[n] == rebuilt[n] <==> s.disk.rows[n].dedup != Some("-")
    {
      LiveRowFits(s, n);
    }
    hide IsLive;
  }

  /** While no key goes to several recipients, a rebuilt index is the maintained one restricted to live
      records exactly when every live record has its row and none of those rows holds the key "-",
      which the log does not keep. */
  lemma RebuildRefinesMaintenance(s: State, order: seq<AgentId>)
    requires Inv(s) && SingleInv(s) && Lists(order, s.disk.logs)
    ensures InsertSeq(Entries(order, s.disk.logs)) == (map n | n in s.disk.rows && IsLive(s, n) :: s.disk.rows[n])
            <==> forall n :: IsLive(s, n) ==> n in s.disk.rows && s.disk.rows[n].dedup != Some("-")
  {
    RebuiltRows(s, order);
    hide Inv, SingleInv, InsertSeq, Entries, Lists, IsLive;
    RestrictedEqual(s.disk.rows, InsertSeq(Entries(order, s.disk.logs)),
                    map n | n in s.disk.rows && IsLive(s, n) :: s.disk.rows[n]);
  }

  /** A live record's row is the one a rebuild gives it unless it holds "-". */
  lemma LiveRowFits(s: State, n: Name)
    requires HistOk(s) && RowsOk(s) && IsLive(s, n) && n in s.disk.rows
    ensures s.disk.rows[n] == RowOf(s.hist[n].rec) <==> s.disk.rows[n].dedup != Some("-")
  {
    hide RecordsOf, Named, Kept, UniqueKeys, SeqOf;
    assert WellFormed(s.hist[n].rec) && RowFits(s.disk.rows[n], s.hist[n]);
  }

  // ---- The index and the scan give one answer ----

  lemma {:induction false} HitsInAscend(a: AgentId, rs: seq<Record>, key: string)
    requires Ascending(rs)
    ensures forall i, j :: 0 <= i < j < |HitsIn(a, rs, key)| ==> HitsIn(a, rs, key)[i] != HitsIn(a, rs, key)[j]
  {
    if rs != [] {
      var init, last := rs[..|rs| - 1], rs[|rs| - 1];
      HitsInAscend(a, init, key);
      var hs := HitsIn(a, init, key);
      forall i | 0 <= i < |hs| ensures hs[i].1 != last {
        HitsInSound(a, init, key, i);
        assert hs[i].1 in init;
      }
    }
  }

  lemma {:induction false} HitsDistinct(order: seq<AgentId>, logs: Files, key: string)
    requires Ascends(logs)
    requires forall i, j :: 0 <= i < j < |order| ==> order[i] != order[j]
    ensures forall i, j :: 0 <= i < j < |Hits(order, logs, key)| ==> Hits(order, logs, key)[i] != Hits(order, logs, key)[j]
  {
    hide RecordsOf;
    if order != [] {
      var init, last := order[..|order| - 1], order[|order| - 1];
      HitsDistinct(init, logs, key);
      assert Ascending(RecordsOf(logs, last));
      HitsInAscend(last, RecordsOf(logs, last), key);
      var hs, more := Hits(init, logs, key), HitsIn(last, RecordsOf(logs, last), key);
      forall i | 0 <= i < |hs| ensures hs[i].0 != last {
        HitsSound(init, logs, key, i);
      }
      forall i | 0 <= i < |more| ensures more[i].0 == last {
        HitsInSound(last, RecordsOf(logs, last), key, i);
      }
    }
  }

  /** Every hit is the only live bearer of the key. */
  lemma HitIsBearer(s: State, order: seq<AgentId>, key: string, n: Name, i: nat)
    requires HistOk(s) && LiveKeysDiffer(s)
    requires IsLive(s, n) && s.hist[n].rec.dedup == Some(key) && i < |Hits(order, s.disk.logs, key)|
    ensures Hits(order, s.disk.logs, key)[i] == (n.0, s.hist[n].rec)
  {
    var h := Hits(order, s.disk.logs, key)[i];
    hide RecordsOf, Hits, LiveKeysDiffer, NamesOk, Kept;
    HitsSound(order, s.disk.logs, key, i);
    LiveKeysApart(s, (h.0, h.1.seqNo), n);
  }

  /** A key with one live bearer is found once by the scan. */
  lemma OneHit(s: State, order: seq<AgentId>, key: string, n: Name)
    requires Inv(s) && SingleKeyed(s) && Lists(order, s.disk.logs)
    requires IsLive(s, n) && s.hist[n].rec.dedup == Some(key)
    ensures Hits(order, s.disk.logs, key) == [(n.0, s.hist[n].rec)]
  {
    var hits := Hits(order, s.disk.logs, key);
    InvParts(s);
    LiveBearersDiffer(s);
    assert Ascends(s.disk.logs);
    hide Inv, RecordsOf, Hits, Ascends, SingleKeyed, HistOk, LiveOk, LiveKeysDiffer;
    NoRecordsOutside(s.disk.logs);
    HitsDistinct(order, s.disk.logs, key);
    HitsComplete(order, s.disk.logs, key, n.0, s.hist[n].rec);
    hide Lists, IsLive;
    forall i | 0 <= i < |hits| ensures hits[i] == (n.0, s.hist[n].rec) {
      HitIsBearer(s, order, key, n, i);
    }
    OneElement(hits, (n.0, s.hist[n].rec));
  }

  lemma FirstTwoDiffer<T>(xs: seq<T>)
    requires |xs| >= 2 && forall i, j :: 0 <= i < j < |xs| ==> xs[i] != xs[j]
    ensures xs[0] != xs[1]
  {
  }

  lemma OneElement<T>(xs: seq<T>, x: T)
    requires x in xs && (forall i :: 0 <= i < |xs| ==> xs[i] == x)
    requires forall i, j :: 0 <= i < j < |xs| ==> xs[i] != xs[j]
    ensures xs == [x]
  {
    if |xs| >= 2 {
      FirstTwoDiffer(xs);
      assert false;
    }
  }

  lemma SinglePermutation(ds: seq<Delivery>, d: Delivery)
    requires multiset(ds) == multiset([d])
    ensures ds == [d]
  {
    assert |ds| == |multiset(ds)| == 1;
    assert ds[0] in multiset(ds);
  }

  lemma LiveBearer(s: State, key: string) returns (n: Name)
    requires HistOk(s) && LogKnows(s.disk.logs, key)
    ensures IsLive(s, n) && s.hist[n].rec.dedup == Some(key) && s.hist[n].rec.seqNo == n.1
  {
    hide RecordsOf, NamesOk, Kept;
    var a, r :| LogHasKey(s.disk.logs, a, r, key);
    n := (a, r.seqNo);
  }

  lemma HitMeansKnown(order: seq<AgentId>, logs: Files, key: string)
    requires Hits(order, logs, key) != []
    ensures LogKnows(logs, key)
  {
    hide Hits, RecordsOf;
    HitsSound(order, logs, key, 0);
    var h := Hits(order, logs, key)[0];
    assert LogHasKey(logs, h.0, h.1, key);
  }

  /** The scan's one answer for a key some live record bears. */
  lemma ScanIsOne(s: State, order: seq<AgentId>, key: string, n: Name, res: SendResult)
    requires Inv(s) && SingleKeyed(s) && Lists(order, s.disk.logs) && ScanAnswer(order, s.disk.logs, key, res)
    requires IsLive(s, n) && s.hist[n].rec.dedup == Some(key) && s.hist[n].rec.seqNo == n.1
    ensures res == SendResult(s.hist[n].rec.id, [Delivery(n.0, n.1)])
  {
    OneHit(s, order, key, n);
    hide Inv, In, Hits, Lists, ByAgent, SingleKeyed;
    assert DeliveriesOfHits([(n.0, s.hist[n].rec)]) == [Delivery(n.0, n.1)];
    SinglePermutation(res.delivered, Delivery(n.0, n.1));
  }

  /** Whenever the scan finds a key, the dedup check answers exactly as the scan does, from the index or
      from its own scan in whatever order: in every state, with a send in flight or just cut down by a
      kill or a power loss. */
  lemma DedupIsScan(s: State, order: seq<AgentId>, key: string, res: SendResult, slow: SendResult)
    requires Inv(s) && SingleInv(s) && Answers(s.disk, key, res)
    requires Lists(order, s.disk.logs) && ScanAnswer(order, s.disk.logs, key, slow)
    ensures res == slow
  {
    InvParts(s);
    HitMeansKnown(order, s.disk.logs, key);
    hide FilesOk, SendsOk, LiveOk, ReceiptsOk, PcOk, HistOk, Hits, LogKnows;
    var n := LiveBearer(s, key);
    hide Inv, SingleInv, IndexAnswer, RowHasKey, IsLive, UniqueKeys, ScanAnswer, Lists;
    assert SingleKeyed(s) && KeyRows(s) by { SingleParts(s); }
    ScanIsOne(s, order, key, n, slow);
    if RowKnows(s.disk.rows, key) {
      IndexIsOne(s, key, n, res);
    } else {
      var order' :| Lists(order', s.disk.logs) && ScanAnswer(order', s.disk.logs, key, res);
      ScanIsOne(s, order', key, n, res);
    }
  }

  lemma SingleParts(s: State)
    requires SingleInv(s)
    ensures SingleKeyed(s) && KeyRows(s)
  {
    hide SingleKeyed, KeyRows, OwnRows;
  }

  lemma IndexIsOne(s: State, key: string, n: Name, res: SendResult)
    requires HistOk(s) && RowsOk(s) && KeyRows(s) && IndexAnswer(s.disk.rows, key, res)
    requires IsLive(s, n) && s.hist[n].rec.dedup == Some(key)
    ensures res == SendResult(s.hist[n].rec.id, [Delivery(n.0, n.1)])
  {
    hide HistOk, RecordsOf, ByAgent, UniqueKeys;
    var m :| RowHasKey(s.disk.rows, m, key) && s.disk.rows[m].id == res.id;
    UniqueAnswer(s.disk.rows, key, res, m);
  }

  /** The same over runs: it holds in every state of every run whose keyed sends have one recipient. */
  lemma IndexRefinesScan(steps: seq<Step>, order: seq<AgentId>, key: string, res: SendResult, slow: SendResult)
    requires Legal(INIT, steps) && SingleSteps(steps)
    requires var d := Run(INIT, steps).disk;
             Answers(d, key, res) && Lists(order, d.logs) && ScanAnswer(order, d.logs, key, slow)
    ensures res == slow
  {
    hide Inv, SingleInv, Legal, Run, SingleSteps, Answers, Lists, ScanAnswer;
    InitOk();
    InitSingle();
    RunKeeps(INIT, steps);
    RunSingle(INIT, steps);
    DedupIsScan(Run(INIT, steps), order, key, res, slow);
  }

  /** With the unique index in force an index answer names exactly one record. */
  lemma UniqueAnswer(rows: Table, key: string, res: SendResult, n: Name)
    requires UniqueKeys(rows) && IndexAnswer(rows, key, res) && RowHasKey(rows, n, key)
    ensures res == SendResult(rows[n].id, [Delivery(n.0, n.1)])
  {
    hide ByAgent;
    var ds := res.delivered;
    var m :| RowHasKey(rows, m, key) && rows[m].id == res.id;
    assert m == n;
    assert Delivery(n.0, n.1) in ds;
    forall i | 0 <= i < |ds| ensures ds[i] == Delivery(n.0, n.1) {
      assert ds[i] in ds && Delivery(NameOf(ds[i]).0, NameOf(ds[i]).1) == ds[i];
      assert RowHasKey(rows, NameOf(ds[i]), key);
    }
    OneElement(ds, Delivery(n.0, n.1));
  }
}
