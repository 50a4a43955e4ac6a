/** When a keyed send takes effect once across processes. The dedup check looks at the index rows
    and the live logs; a key is forgotten by a compaction that archives its only unindexed record
    and by a recovery that rebuilds the index while the key is only archived. The key "-" is kept by
    rows alone: any recovery forgets it, and so does a death before its first row. Exactly these
    guards keep every key. */
module KeyedSends {
  import opened Text
  import opened Codec
  import opened CodecLaws
  import opened Storage
  import opened StorageLaws
  import opened Compaction
  import opened Protocol
  import opened Invariant
  import opened Preservation
  import opened Runs

  ghost predicate SharesKey(e: Entry, f: Entry) {
    e.key.Some? && e.key == f.key
  }

  /** All records sent with a key were written by one send. */
  ghost predicate KeyOnce(s: State) {
    forall m, n :: m in s.hist && n in s.hist && SharesKey(s.hist[m], s.hist[n]) ==>
      s.hist[m].send == s.hist[n].send
  }

  /** The record was sent with the key. */
  ghost predicate HasKey(hist: History, n: Name, key: string) {
    n in hist && hist[n].key == Some(key)
  }

  /** Every key ever sent is still seen by the dedup check; a record whose row is about to be
      inserted counts once it has it, as nobody can check in between. */
  ghost predicate KeysKnown(s: State) {
    forall n, key :: HasKey(s.hist, n, key) && !AwaitsRow(s, n) ==> KeyKnown(s.disk, key)
  }

  ghost predicate OwnKey(s: State) {
    s.lock.Held? && s.lock.pc.Sending? && s.lock.pc.job.key.Some? ==>
      forall n :: HasKey(s.hist, n, s.lock.pc.job.key.value) ==> s.hist[n].send == s.sends
  }

  ghost predicate KeyInv(s: State) {
    KeyOnce(s) && KeysKnown(s) && OwnKey(s)
  }

  // ---- The guards ----

  ghost predicate RowKnows(rows: Table, key: string) {
    exists n :: RowHasKey(rows, n, key)
  }

  ghost predicate LogKnows(logs: Files, key: string) {
    exists a, r :: LogHasKey(logs, a, r, key)
  }

  /** A live record outside the prefix being archived carries the key. */
  ghost predicate SurvivorHasKey(logs: Files, a: AgentId, b: nat, c: AgentId, r: Record, key: string)
    requires b <= |FileOf(logs, a)|
  {
    r.dedup == Some(key) && if c == a then r in RecordsIn(FileOf(logs, a)[b..]) else r in RecordsOf(logs, c)
  }

  ghost predicate SurvivorKnows(logs: Files, a: AgentId, b: nat, key: string)
    requires b <= |FileOf(logs, a)|
  {
    exists c, q :: SurvivorHasKey(logs, a, b, c, q, key)
  }

  /** Every key in the prefix has an index row or a live record that stays. */
  ghost predicate PrefixKeysStay(s: State, a: AgentId, b: nat)
    requires b <= |FileOf(s.disk.logs, a)|
  {
    forall r, key :: r in RecordsIn(FileOf(s.disk.logs, a)[..b]) && r.dedup == Some(key) ==>
      RowKnows(s.disk.rows, key) || SurvivorKnows(s.disk.logs, a, b, key)
  }

  /** Every archived key is also carried by a live record. */
  ghost predicate ArchivedKeysLive(s: State) {
    forall a, r, key :: LogHasKey(s.disk.archives, a, r, key) ==> LogKnows(s.disk.logs, key)
  }

  /** A record awaiting its row is either found by its key in the log or not the first of its send. */
  ghost predicate PendingKeyKnown(s: State) {
    (exists n :: AwaitsRow(s, n)) && s.lock.pc.job.key == Some("-") ==> RowKnows(s.disk.rows, "-")
  }

  ghost predicate KeyGuard(s: State, st: Step) {
    && (st.RewriteLog? && CanRewrite(s) ==> PrefixKeysStay(s, s.lock.pc.agent, s.lock.pc.boundary))
    && (st.RebuildIndex? ==> ArchivedKeysLive(s) && !RowKnows(s.disk.rows, "-"))
    && (st.Kill? || st.PowerLoss? ==> PendingKeyKnown(s))
  }

  ghost predicate GuardedKeys(s: State, steps: seq<Step>)
    requires Legal(s, steps)
    decreases steps
  {
    steps == [] || (KeyGuard(s, steps[0]) && GuardedKeys(Apply(s, steps[0]), steps[1..]))
  }

  // ---- What each step does to the visible keys ----

  lemma KnownBySame(d: Disk, e: Disk)
    requires e.rows == d.rows && SameFiles(d.logs, e.logs)
    ensures forall key :: KeyKnown(e, key) <==> KeyKnown(d, key)
  {
    hide RecordsOf, RowHasKey;
    forall key ensures KeyKnown(e, key) <==> KeyKnown(d, key) {
      forall a, r ensures LogHasKey(e.logs, a, r, key) <==> LogHasKey(d.logs, a, r, key) {
        assert RecordsOf(e.logs, a) == RecordsOf(d.logs, a);
      }
    }
  }

  lemma SameKnown(s: State, t: State)
    requires KeysKnown(s) && t.hist == s.hist && t.disk.rows == s.disk.rows && SameFiles(s.disk.logs, t.disk.logs)
    requires forall n :: !AwaitsRow(s, n)
    ensures KeysKnown(t)
  {
    KnownBySame(s.disk, t.disk);
    hide KeyKnown, SameFiles, AwaitsRow;
  }

  /** No other step finds a record awaiting its row. */
  lemma NoneAwaits(s: State, st: Step)
    requires Enabled(s, st) && !st.InsertRow? && !st.Kill? && !st.PowerLoss?
    ensures forall n :: !AwaitsRow(s, n)
  {
    hide CanBeginSend, CanArchive, CanRewrite, CanTruncate, CanWriteCounter, CanRebuild, Lists;
    if st.BeginSend? {
      assert s.lock.Free? by { FreeToBegin(s, st); }
    } else if st.ArchivePrefix? {
      assert s.lock.Free? by { FreeToBegin(s, st); }
    } else if st.RewriteLog? || st.TruncateTail? || st.WriteCounter? || st.RebuildIndex? {
      NotSending(s, st);
    }
  }

  lemma FreeToBegin(s: State, st: Step)
    requires Enabled(s, st) && (st.BeginSend? || st.ArchivePrefix?)
    ensures s.lock.Free?
  {
    hide JobOk, RecipientsOk, KeyKnown, CompactPoint;
  }

  lemma NotSending(s: State, st: Step)
    requires Enabled(s, st) && (st.RewriteLog? || st.TruncateTail? || st.WriteCounter? || st.RebuildIndex?)
    ensures s.lock.Held? && !s.lock.pc.Sending?
  {
    hide Lists, FileOf;
  }

  lemma AppendKnown(s: State)
    requires Inv(s) && KeysKnown(s) && SendingAt(s, false, true, false)
    ensures KeysKnown(DoAppend(s))
  {
    var t := DoAppend(s);
    var a, rec := s.lock.pc.todo[0], PendingRecord(s.lock.pc);
    AppendChange(s);
    NoneAwaits(s, AppendRecord);
    hide Inv, DoAppend, SendingAt, AwaitsRow, Appended, KeyKnown, Recorded, PendingRecord;
    forall n, key | HasKey(t.hist, n, key) && !AwaitsRow(t, n) ensures KeyKnown(t.disk, key) {
      assert HasKey(s.hist, n, key) by { OlderEntry(s.hist, t.hist, a, rec, s.sends, n); }
      AppendedKnown(s.disk, t.disk, a, rec, key);
    }
  }

  lemma OlderEntry(hist: History, hist': History, a: AgentId, rec: Record, send: nat, n: Name)
    requires Recorded(hist, hist', a, rec, send) && n in hist' && n != (a, rec.seqNo)
    ensures n in hist && hist'[n] == hist[n]
  {
  }

  lemma AppendChange(s: State)
    requires Inv(s) && SendingAt(s, false, true, false)
    ensures var t := DoAppend(s);
            var a, rec := s.lock.pc.todo[0], PendingRecord(s.lock.pc);
            && Appended(s.disk.logs, t.disk.logs, a, rec) && Recorded(s.hist, t.hist, a, rec, s.sends)
            && t.disk.rows == s.disk.rows && AwaitsRow(t, (a, rec.seqNo))
  {
    AppendRows(s);
    assert SendPcOk(s, s.lock.pc) && FilesOk(s) && PcOk(s);
    hide Inv, FilesOk, PcOk, SendPcOk, Appended, Recorded, DoAppend, PendingRecord, AwaitsRow, SendingAt;
    AppendFiles(s);
    SendIsRecorded(s);
  }

  lemma AppendRows(s: State)
    requires SendingAt(s, false, true, false)
    ensures var t := DoAppend(s);
            t.disk.rows == s.disk.rows && AwaitsRow(t, (s.lock.pc.todo[0], PendingRecord(s.lock.pc).seqNo))
  {
    hide Encoding, FileOf, StoredKey;
  }

  lemma AppendedKnown(d: Disk, e: Disk, a: AgentId, rec: Record, key: string)
    requires Appended(d.logs, e.logs, a, rec) && e.rows == d.rows && KeyKnown(d, key)
    ensures KeyKnown(e, key)
  {
    hide RecordsOf, RowHasKey;
    if b, r :| LogHasKey(d.logs, b, r, key) {
      assert r in RecordsOf(e.logs, b);
      assert LogHasKey(e.logs, b, r, key);
    }
  }

  lemma InsertedKnown(d: Disk, e: Disk, name: Name, row: Row, key: string)
    requires e.logs == d.logs && e.rows == InsertOrReplace(d.rows, name, row) && UniqueKeys(d.rows)
    requires name in d.rows ==> d.rows[name].dedup == row.dedup || d.rows[name].dedup == None
    ensures KeyKnown(d, key) ==> KeyKnown(e, key)
    ensures row.dedup == Some(key) ==> KeyKnown(e, key)
  {
    hide RecordsOf, UniqueKeys;
    if row.dedup == Some(key) {
      assert RowHasKey(e.rows, name, key);
    } else if KeyKnown(d, key) {
      if n :| RowHasKey(d.rows, n, key) {
        assert RowHasKey(e.rows, n, key);
      } else {
        var a, r :| LogHasKey(d.logs, a, r, key);
        assert LogHasKey(e.logs, a, r, key);
      }
    }
  }

  lemma InsertRowKnown(s: State)
    requires RowsOk(s) && KeysKnown(s) && SendingAt(s, false, false, true) && IsWritten(s, s.lock.pc)
    requires NamesOk(s.hist, s.disk.seqs)
    ensures KeysKnown(DoInsertRow(s))
  {
    var t := DoInsertRow(s);
    var pc := s.lock.pc;
    var name := (pc.todo[0], pc.stage.seqNo as int);
    var row := RowFor(pc.job, pc.id);
    assert t.disk.rows == InsertOrReplace(s.disk.rows, name, row) && t.disk.logs == s.disk.logs && t.hist == s.hist;
    assert s.hist[name].key == pc.job.key && s.hist[name].rec.dedup == StoredKey(pc.job.key);
    assert forall n :: AwaitsRow(s, n) <==> n == name;
    hide In, UniqueKeys, DoInsertRow, SendingAt, IsWritten, InsertOrReplace, AwaitsRow, KeyKnown, NamesOk;
    forall n, key | HasKey(t.hist, n, key) ensures KeyKnown(t.disk, key) {
      InsertedKnown(s.disk, t.disk, name, row, key);
    }
  }

  /** No record in a log reads back with the key "-". */
  lemma NoDashInLogs(files: Files, hist: History, seqs: map<AgentId, nat>)
    requires Named(files, hist) && NamesOk(hist, seqs)
    ensures !LogKnows(files, "-")
  {
    hide RecordsOf, SeqOf;
    forall a, r ensures !LogHasKey(files, a, r, "-") {
      assert r in RecordsOf(files, a) ==> WellFormed(hist[(a, r.seqNo)].rec);
    }
  }

  /** A stored record that bears a key was sent with it. */
  lemma StoredHasKey(files: Files, hist: History, seqs: map<AgentId, nat>, a: AgentId, r: Record, key: string)
    requires Named(files, hist) && NamesOk(hist, seqs) && LogHasKey(files, a, r, key)
    ensures HasKey(hist, (a, r.seqNo), key)
  {
    hide RecordsOf, SeqOf, WellFormed;
  }

  /** The key of the record awaiting its row is found in the log, unless it is "-". */
  lemma PendingKey(s: State, n: Name)
    requires PcOk(s) && NamesOk(s.hist, s.disk.seqs) && AwaitsRow(s, n)
    ensures n in s.hist && s.hist[n].key == s.lock.pc.job.key
    ensures s.hist[n].key.Some? && s.hist[n].key.value != "-" ==> LogKnows(s.disk.logs, s.hist[n].key.value)
  {
    assert SendPcOk(s, s.lock.pc);
    WrittenPc(s);
    hide PcOk, SendPcOk, RecordsOf, WellFormed, SeqOf;
    var key := s.hist[n].key;
    if key.Some? && key.value != "-" {
      assert LogHasKey(s.disk.logs, n.0, s.hist[n].rec, key.value);
    }
  }

  /** Dying keeps all keys visible exactly when the record awaiting its row is found without it. */
  lemma DeathKnown(s: State, t: State)
    requires Inv(s) && KeysKnown(s) && s.lock.Held? && t.lock.Free?
    requires t.hist == s.hist && t.disk.rows == s.disk.rows && SameFiles(s.disk.logs, t.disk.logs)
    ensures KeysKnown(t) <==> PendingKeyKnown(s)
  {
    KnownBySame(s.disk, t.disk);
    FreeAwaitsNone(t);
    assert HistOk(s) && PcOk(s);
    NoDashInLogs(s.disk.logs, s.hist, s.disk.seqs);
    assert KeyKnown(s.disk, "-") <==> RowKnows(s.disk.rows, "-") by { hide RowHasKey, LogHasKey; }
    hide Inv, SameFiles;
    if n :| AwaitsRow(s, n) {
      PendingKey(s, n);
      var key := s.lock.pc.job.key;
      assert forall m :: AwaitsRow(s, m) ==> m == n;
      assert key.Some? ==> HasKey(t.hist, n, key.value);
      hide PcOk, HistOk, AwaitsRow, RowHasKey, LogHasKey;
      assert key.Some? && key.value != "-" ==> KeyKnown(s.disk, key.value);
      hide KeyKnown, RowKnows, LogKnows;
    } else {
      hide HistOk, PcOk, KeyKnown, AwaitsRow, RowKnows, LogKnows;
    }
  }

  /** The rewrite keeps all keys visible exactly under its guard. */
  lemma RewriteKnown(s: State)
    requires Inv(s) && KeysKnown(s) && CanRewrite(s)
    ensures KeysKnown(DoRewrite(s)) <==> PrefixKeysStay(s, s.lock.pc.agent, s.lock.pc.boundary)
  {
    var t := DoRewrite(s);
    var a, b := s.lock.pc.agent, s.lock.pc.boundary;
    RewriteChange(s);
    CompactingAwaitsNone(s);
    FreeAwaitsNone(t);
    hide Inv, RecordsOf, RecordsIn, FileOf, DoRewrite, CanRewrite, AwaitsRow, Shrunk, LogKnows, SurvivorKnows,
      KeysKnown, PrefixKeysStay;
    forall key ensures LogKnows(t.disk.logs, key) <==> SurvivorKnows(s.disk.logs, a, b, key) {
      Survivors(s, t, a, b, key);
    }
    if PrefixKeysStay(s, a, b) {
      StayedKnown(s, t, a, b);
    }
    if KeysKnown(t) {
      MovedStay(s, t, a, b);
    }
  }

  lemma CompactingAwaitsNone(s: State)
    requires CanRewrite(s)
    ensures forall n :: !AwaitsRow(s, n)
  {
    hide FileOf;
  }

  lemma RewriteChange(s: State)
    requires Inv(s) && CanRewrite(s)
    ensures var t := DoRewrite(s);
            var a, b := s.lock.pc.agent, s.lock.pc.boundary;
            && Shrunk(s.disk.logs, t.disk.logs, s.disk.archives, a, RecordsIn(FileOf(s.disk.logs, a)[..b]))
            && RecordsOf(t.disk.logs, a) == RecordsIn(FileOf(s.disk.logs, a)[b..])
            && (forall c :: c != a ==> RecordsOf(t.disk.logs, c) == RecordsOf(s.disk.logs, c))
            && t.disk.rows == s.disk.rows && t.hist == s.hist && t.lock.Free?
  {
    assert FilesOk(s) && PcOk(s);
    hide Inv, FilesOk, PcOk, RecordsIn, Shrunk;
    RewriteFiles(s);
    FileUpdate(s.disk.logs, s.lock.pc.agent, FileOf(s.disk.logs, s.lock.pc.agent)[s.lock.pc.boundary..]);
  }

  lemma StayedKnown(s: State, t: State, a: AgentId, b: nat)
    requires KeysKnown(s) && t.hist == s.hist && t.disk.rows == s.disk.rows && forall n :: !AwaitsRow(s, n)
    requires b <= |FileOf(s.disk.logs, a)| && PrefixKeysStay(s, a, b)
    requires Shrunk(s.disk.logs, t.disk.logs, s.disk.archives, a, RecordsIn(FileOf(s.disk.logs, a)[..b]))
    requires forall key :: LogKnows(t.disk.logs, key) <==> SurvivorKnows(s.disk.logs, a, b, key)
    ensures KeysKnown(t)
  {
    hide RecordsOf, RecordsIn, FileOf, RowKnows, LogKnows, KeyKnown, Shrunk, AwaitsRow, SurvivorKnows;
    forall n, key | HasKey(t.hist, n, key) ensures KeyKnown(t.disk, key) {
      assert HasKey(s.hist, n, key);
      KnownAfterShrink(s.disk, t.disk, a, RecordsIn(FileOf(s.disk.logs, a)[..b]), key);
    }
  }

  lemma StoredIsKnown(s: State, t: State, a: AgentId, r: Record, key: string)
    requires HistOk(s) && KeysKnown(t) && t.hist == s.hist && forall n :: !AwaitsRow(t, n)
    requires r in RecordsOf(s.disk.logs, a) && r.dedup == Some(key)
    ensures RowKnows(t.disk.rows, key) || LogKnows(t.disk.logs, key)
  {
    StoredHasKey(s.disk.logs, s.hist, s.disk.seqs, a, r, key);
    hide HistOk, RecordsOf, RowHasKey, LogHasKey, AwaitsRow;
    assert HasKey(t.hist, (a, r.seqNo), key);
    assert KeyKnown(t.disk, key);
  }

  lemma MovedStay(s: State, t: State, a: AgentId, b: nat)
    requires Inv(s) && KeysKnown(t) && t.hist == s.hist && t.disk.rows == s.disk.rows && forall n :: !AwaitsRow(t, n)
    requires b <= |FileOf(s.disk.logs, a)|
    requires Shrunk(s.disk.logs, t.disk.logs, s.disk.archives, a, RecordsIn(FileOf(s.disk.logs, a)[..b]))
    requires forall key :: LogKnows(t.disk.logs, key) <==> SurvivorKnows(s.disk.logs, a, b, key)
    ensures PrefixKeysStay(s, a, b)
  {
    var moved := RecordsIn(FileOf(s.disk.logs, a)[..b]);
    hide Inv, RecordsOf, RecordsIn, FileOf, RowKnows, LogKnows, AwaitsRow, SurvivorKnows, KeysKnown, HistOk;
    assert HistOk(s) by { InvParts(s); }
    forall r, key | r in moved && r.dedup == Some(key)
      ensures RowKnows(s.disk.rows, key) || SurvivorKnows(s.disk.logs, a, b, key)
    {
      assert r in moved + RecordsOf(t.disk.logs, a);
      StoredIsKnown(s, t, a, r, key);
    }
  }

  lemma Survivors(s: State, t: State, a: AgentId, b: nat, key: string)
    requires b <= |FileOf(s.disk.logs, a)|
    requires RecordsOf(t.disk.logs, a) == RecordsIn(FileOf(s.disk.logs, a)[b..])
    requires forall c :: c != a ==> RecordsOf(t.disk.logs, c) == RecordsOf(s.disk.logs, c)
    ensures LogKnows(t.disk.logs, key) <==> SurvivorKnows(s.disk.logs, a, b, key)
  {
    hide RecordsOf, RecordsIn, FileOf;
    if LogKnows(t.disk.logs, key) {
      var c, q :| LogHasKey(t.disk.logs, c, q, key);
      assert SurvivorHasKey(s.disk.logs, a, b, c, q, key);
    }
    if c, q :| SurvivorHasKey(s.disk.logs, a, b, c, q, key) {
      assert LogHasKey(t.disk.logs, c, q, key);
    }
  }

  /** A key known before the rewrite is known after it unless its only bearers were moved. */
  lemma KnownAfterShrink(d: Disk, e: Disk, a: AgentId, moved: seq<Record>, key: string)
    requires Shrunk(d.logs, e.logs, d.archives, a, moved) && e.rows == d.rows && KeyKnown(d, key)
    requires forall r :: r in moved && r.dedup == Some(key) ==> RowKnows(d.rows, key) || LogKnows(e.logs, key)
    ensures KeyKnown(e, key)
  {
    hide RecordsOf, RowHasKey;
    if n :| RowHasKey(d.rows, n, key) {
      assert RowHasKey(e.rows, n, key);
    } else {
      var c, r :| LogHasKey(d.logs, c, r, key);
      if c == a {
        assert r in moved || r in RecordsOf(e.logs, a);
      }
      assert r in moved || LogHasKey(e.logs, c, r, key);
    }
  }

  /** A rebuilt index knows no key that the live logs do not. */
  lemma RebuiltKnows(order: seq<AgentId>, logs: Files, key: string)
    requires RowKnows(InsertSeq(Entries(order, logs)), key)
    ensures LogKnows(logs, key)
  {
    hide RecordsOf, InsertSeq, Entries;
    var es := Entries(order, logs);
    var n :| RowHasKey(InsertSeq(es), n, key);
    var k := InsertSeqSource(es, n);
    var i := EntrySource(order, logs, k);
    assert LogHasKey(logs, n.0, RecordsOf(logs, n.0)[i], key);
  }

  lemma RebuiltKnown(order: seq<AgentId>, d: Disk, e: Disk, key: string)
    requires e.logs == d.logs && e.rows == InsertSeq(Entries(order, d.logs))
    ensures KeyKnown(e, key) <==> LogKnows(d.logs, key)
  {
    hide RecordsOf, InsertSeq, Entries, RowHasKey, LogHasKey;
    if RowKnows(e.rows, key) {
      RebuiltKnows(order, d.logs, key);
    }
  }

  lemma LogsKnowAll(s: State)
    requires HistOk(s) && ArchivedKeysLive(s) && !RowKnows(s.disk.rows, "-")
    requires KeysKnown(s) && (forall n :: !AwaitsRow(s, n)) && !LogKnows(s.disk.logs, "-")
    ensures forall n, key :: HasKey(s.hist, n, key) ==> LogKnows(s.disk.logs, key)
  {
    HistoricalAreStored(s);
    hide HistOk, AwaitsRow, RowHasKey, LogHasKey;
    forall n ensures !HasKey(s.hist, n, "-") {
      assert HasKey(s.hist, n, "-") ==> KeyKnown(s.disk, "-");
    }
  }

  lemma AllKeysLive(s: State, t: State)
    requires HistOk(s) && KeysKnown(t) && t.hist == s.hist && forall n :: !AwaitsRow(t, n)
    requires forall key :: KeyKnown(t.disk, key) <==> LogKnows(s.disk.logs, key)
    ensures ArchivedKeysLive(s)
  {
    ArchivedAreHistorical(s);
    hide HistOk, AwaitsRow, KeyKnown, LogKnows, LogHasKey;
  }

  lemma RebuildChange(s: State, order: seq<AgentId>)
    requires Inv(s) && CanRebuild(s, order)
    ensures var t := DoRebuild(s, order);
            && t.lock.Free? && t.hist == s.hist && (forall n :: !AwaitsRow(s, n)) && !LogKnows(s.disk.logs, "-")
            && forall key :: KeyKnown(t.disk, key) <==> LogKnows(s.disk.logs, key)
  {
    var t := DoRebuild(s, order);
    assert HistOk(s);
    NoDashInLogs(s.disk.logs, s.hist, s.disk.seqs);
    hide Inv, HistOk, LogKnows, KeyKnown, InsertSeq, Entries, Lists;
    forall key ensures KeyKnown(t.disk, key) <==> LogKnows(s.disk.logs, key) {
      RebuiltKnown(order, s.disk, t.disk, key);
    }
  }

  /** The rebuild keeps all keys visible exactly under its guard. */
  lemma RebuildKnown(s: State, order: seq<AgentId>)
    requires Inv(s) && KeysKnown(s) && CanRebuild(s, order)
    ensures KeysKnown(DoRebuild(s, order)) <==> ArchivedKeysLive(s) && !RowKnows(s.disk.rows, "-")
  {
    var t := DoRebuild(s, order);
    RebuildChange(s, order);
    FreeAwaitsNone(t);
    hide DoRebuild, CanRebuild;
    assert HistOk(s) && RowsOk(s);
    hide Inv, RowsOk, HistOk, LogHasKey, AwaitsRow, KeyKnown, RowHasKey, ArchivedKeysLive;
    if RowKnows(s.disk.rows, "-") {
      var n :| RowHasKey(s.disk.rows, n, "-");
      RowHasSentKey(s, n, "-");
      assert HasKey(t.hist, n, "-") && !AwaitsRow(t, n) && !KeyKnown(t.disk, "-");
    }
    if KeysKnown(t) {
      AllKeysLive(s, t);
    }
    if ArchivedKeysLive(s) && !RowKnows(s.disk.rows, "-") {
      LogsKnowAll(s);
    }
  }

  lemma FreeAwaitsNone(s: State)
    requires s.lock.Free?
    ensures forall n :: !AwaitsRow(s, n)
  {
  }

  /** A row that bears a key belongs to a record sent with it. */
  lemma RowHasSentKey(s: State, n: Name, key: string)
    requires RowsOk(s) && HistOk(s) && RowHasKey(s.disk.rows, n, key)
    ensures HasKey(s.hist, n, key) && s.disk.rows[n].id == s.hist[n].rec.id
  {
    hide Named, Kept, UniqueKeys, SeqOf, WellFormed;
  }

  lemma ArchivedAreHistorical(s: State)
    requires HistOk(s)
    ensures forall a, r, key :: LogHasKey(s.disk.archives, a, r, key) ==> HasKey(s.hist, (a, r.seqNo), key)
  {
    hide Named, NamesOk, Kept, LogHasKey, HasKey;
    forall a, r, key | LogHasKey(s.disk.archives, a, r, key) ensures HasKey(s.hist, (a, r.seqNo), key) {
      StoredHasKey(s.disk.archives, s.hist, s.disk.seqs, a, r, key);
    }
  }

  lemma HistoricalAreStored(s: State)
    requires HistOk(s)
    ensures forall n, key :: HasKey(s.hist, n, key) && key != "-" ==>
              LogHasKey(s.disk.logs, n.0, s.hist[n].rec, key) || LogHasKey(s.disk.archives, n.0, s.hist[n].rec, key)
  {
    hide RecordsOf, Named, SeqOf, WellFormed;
  }

  /** Any other step keeps every key visible. */
  lemma OtherKnown(s: State, st: Step)
    requires Inv(s) && KeysKnown(s) && Enabled(s, st) && !st.RewriteLog? && !st.RebuildIndex? && !st.Kill? && !st.PowerLoss?
    ensures KeysKnown(Apply(s, st))
  {
    if st.AppendRecord? {
      AppendKnown(s);
    } else if st.InsertRow? {
      assert HistOk(s);
      WrittenPc(s);
      InsertRowKnown(s);
    } else {
      RecordsStay(s, st);
      NoneAwaits(s, st);
      hide Inv, KeysKnown, SameFiles, Enabled, Apply, AwaitsRow;
      SameKnown(s, Apply(s, st));
    }
  }

  lemma DeathStep(s: State, st: Step)
    requires Inv(s) && KeysKnown(s) && Enabled(s, st) && (st.Kill? || st.PowerLoss?)
    ensures KeysKnown(Apply(s, st)) <==> PendingKeyKnown(s)
  {
    RecordsStay(s, st);
    DeathFrees(s, st);
    hide Inv, SameFiles, Enabled, Apply, PendingKeyKnown;
    if s.lock.Held? {
      hide KeysKnown;
      DeathKnown(s, Apply(s, st));
    } else {
      FreeAwaitsNone(s);
      hide KeysKnown, AwaitsRow;
      SameKnown(s, Apply(s, st));
      NothingPending(s);
    }
  }

  lemma NothingPending(s: State)
    requires s.lock.Free?
    ensures PendingKeyKnown(s)
  {
  }

  lemma DeathFrees(s: State, st: Step)
    requires Enabled(s, st) && (st.Kill? || st.PowerLoss?)
    ensures Apply(s, st).lock.Free?
  {
    hide CanLosePower;
  }

  lemma QuietLogs(s: State, st: Step)
    requires Enabled(s, st) && !st.RewriteLog? && !st.AppendRecord? && !st.TruncateTail? && !st.PowerLoss?
    ensures Apply(s, st).disk.logs == s.disk.logs
  {
    hide SendingAt, CanBeginSend, CanArchive, CanWriteCounter, CanRebuild, Lists, CompactPoint, MaxIdOver, InsertSeq,
      Entries, InsertOrReplace;
  }

  lemma QuietRows(s: State, st: Step)
    requires Enabled(s, st) && !st.RebuildIndex? && !st.AppendRecord? && !st.InsertRow?
    ensures Apply(s, st).disk.rows == s.disk.rows && Apply(s, st).hist == s.hist
  {
    hide SendingAt, CanBeginSend, CanArchive, CanWriteCounter, Lists, CompactPoint, MaxIdOver, Truncated, Encoding;
  }

  lemma EqualFiles(f: Files, g: Files)
    requires f == g
    ensures SameFiles(f, g)
  {
    hide RecordsOf;
  }

  lemma TornLogs(s: State, st: Step)
    requires Inv(s) && Enabled(s, st) && (st.TruncateTail? || st.PowerLoss?)
    ensures SameFiles(s.disk.logs, Apply(s, st).disk.logs)
  {
    assert FilesOk(s) && PcOk(s);
    hide Inv, FilesOk, PcOk, SameFiles, DoTruncate, DoLosePower, CanTruncate, CanLosePower;
    if st.TruncateTail? {
      TruncateFiles(s);
    } else {
      LosePowerFiles(s, st.torn);
    }
  }

  lemma RecordsStay(s: State, st: Step)
    requires Inv(s) && Enabled(s, st)
    requires !st.RewriteLog? && !st.RebuildIndex? && !st.AppendRecord? && !st.InsertRow?
    ensures var t := Apply(s, st);
            t.hist == s.hist && t.disk.rows == s.disk.rows && SameFiles(s.disk.logs, t.disk.logs)
  {
    hide Inv, Enabled, Apply, SameFiles;
    QuietRows(s, st);
    if st.TruncateTail? || st.PowerLoss? {
      TornLogs(s, st);
    } else {
      QuietLogs(s, st);
      EqualFiles(s.disk.logs, Apply(s, st).disk.logs);
    }
  }

  /** A step keeps every key visible exactly when its guard holds. */
  lemma StepKeepsKeysExactly(s: State, st: Step)
    requires Inv(s) && KeysKnown(s) && Enabled(s, st)
    ensures KeysKnown(Apply(s, st)) <==> KeyGuard(s, st)
  {
    hide Inv, KeysKnown, PrefixKeysStay, ArchivedKeysLive, CanRewrite, CanRebuild, DoRewrite, DoRebuild, PendingKeyKnown,
      CanLosePower, DoLosePower, RowKnows;
    match st
    case RewriteLog => RewriteKnown(s);
    case RebuildIndex(order) => RebuildKnown(s, order);
    case Kill => DeathStep(s, st);
    case PowerLoss(torn) => DeathStep(s, st);
    case _ => OtherKnown(s, st);
  }

  // ---- Once per key, over runs ----

  lemma {:induction false} RunKeyed(s: State, steps: seq<Step>)
    requires Inv(s) && KeyInv(s) && Legal(s, steps) && GuardedKeys(s, steps)
    ensures KeyInv(Run(s, steps))
    decreases steps
  {
    hide Inv, Enabled, Apply, KeyInv, KeyGuard;
    if steps != [] {
      StepKeeps(s, steps[0]);
      StepKeyed(s, steps[0]);
      RunKeyed(Apply(s, steps[0]), steps[1..]);
    }
  }

  lemma StepKeyed(s: State, st: Step)
    requires Inv(s) && KeyInv(s) && Enabled(s, st) && KeyGuard(s, st)
    ensures KeyInv(Apply(s, st))
  {
    StepKeepsKeysExactly(s, st);
    hide Inv, KeysKnown, KeyGuard, SendingAt, DoAppend, DoBeginSend, DoWriteCounter, CanBeginSend, CanWriteCounter;
    match st
    case AppendRecord => AppendOnce(s);
    case BeginSend(pid, job, rs) => BeginOnce(s, pid, job, rs);
    case WriteCounter(order) => assert Apply(s, st).hist == s.hist by { CounterHist(s, order); }
    case _ => QuietStep(s, st);
  }

  lemma CounterHist(s: State, order: seq<AgentId>)
    requires CanWriteCounter(s, order)
    ensures DoWriteCounter(s, order).hist == s.hist && !DoWriteCounter(s, order).lock.pc.Sending?
  {
  }

  /** A send begins only if its key is unknown, hence, all keys being known, new. */
  lemma BeginOnce(s: State, pid: nat, job: Job, rs: seq<AgentId>)
    requires KeyInv(s) && CanBeginSend(s, job, rs)
    ensures KeyOnce(DoBeginSend(s, pid, job, rs)) && OwnKey(DoBeginSend(s, pid, job, rs))
  {
    FreeAwaitsNone(s);
    hide KeyKnown, JobOk, RecipientsOk, HasKey, AwaitsRow;
  }

  lemma AppendOnce(s: State)
    requires Inv(s) && KeyInv(s) && SendingAt(s, false, true, false)
    ensures KeyOnce(DoAppend(s)) && OwnKey(DoAppend(s))
  {
    assert SendPcOk(s, s.lock.pc);
    SendIsRecorded(s);
    var t := DoAppend(s);
    var name, key := (s.lock.pc.todo[0], PendingRecord(s.lock.pc).seqNo), s.lock.pc.job.key;
    hide Inv, KeysKnown, Encoding, SendPcOk, HasKey;
    assert t.sends == s.sends && t.hist == s.hist[name := Entry(s.sends, PendingRecord(s.lock.pc), key)] && name !in s.hist;
    assert t.lock.pc.job == s.lock.pc.job;
    hide DoAppend;
    RecordedOnce(s.hist, t.hist, name, Entry(s.sends, PendingRecord(s.lock.pc), key));
  }

  lemma RecordedOnce(hist: History, hist': History, name: Name, e: Entry)
    requires hist' == hist[name := e] && name !in hist
    requires forall m, n :: m in hist && n in hist && SharesKey(hist[m], hist[n]) ==> hist[m].send == hist[n].send
    requires e.key.Some? ==> forall n :: HasKey(hist, n, e.key.value) ==> hist[n].send == e.send
    ensures forall m, n :: m in hist' && n in hist' && SharesKey(hist'[m], hist'[n]) ==> hist'[m].send == hist'[n].send
    ensures e.key.Some? ==> forall n :: HasKey(hist', n, e.key.value) ==> hist'[n].send == e.send
  {
    forall m, n | m in hist' && n in hist' && SharesKey(hist'[m], hist'[n])
      ensures hist'[m].send == hist'[n].send
    {
      assert n != name ==> hist'[n] == hist[n];
      assert m != name ==> hist'[m] == hist[m];
      assert m == name && n != name ==> HasKey(hist, n, e.key.value);
      assert n == name && m != name ==> HasKey(hist, m, e.key.value);
    }
  }

  /** In every run that forgets no key, all records sent with a key, "-" included, come from one
      send: they share one id and lie in different mailboxes. */
  lemma KeyedSendsTakeEffectOnce(steps: seq<Step>, m: Name, n: Name)
    requires Legal(INIT, steps) && GuardedKeys(INIT, steps)
    requires var h := Run(INIT, steps).hist; m in h && n in h && SharesKey(h[m], h[n])
    ensures var h := Run(INIT, steps).hist; h[m].rec.id == h[n].rec.id && (m.0 == n.0 ==> m == n)
  {
    hide Inv, Legal, Run, GuardedKeys;
    InitOk();
    RunKeyed(INIT, steps);
    RunKeeps(INIT, steps);
    SendsFacts(Run(INIT, steps), m, n);
  }

  lemma SendsFacts(s: State, m: Name, n: Name)
    requires Inv(s) && m in s.hist && n in s.hist && s.hist[m].send == s.hist[n].send
    ensures s.hist[m].rec.id == s.hist[n].rec.id && (m.0 == n.0 ==> m == n)
  {
    hide FilesOk, HistOk, LiveOk, RowsOk, ReceiptsOk, PcOk;
  }

  // ---- The guards are necessary ----

  function KeyedJob(key: string): Job {
    Job("a", "", "info", "", None, "2000-01-01T00:00:00Z", Some(key))
  }

  predicate SendOnly(st: Step) {
    st.BeginSend? || st.WriteSeq? || st.AppendRecord?
  }

  /** A key that is in the history but no longer visible is written a second time by the next send
      that carries it. */
  lemma ForgottenKeyRepeats(s: State, n: Name, key: string) returns (steps: seq<Step>)
    requires Inv(s) && s.lock.Free? && !s.down && HasKey(s.hist, n, key) && !KeyKnown(s.disk, key)
    ensures Legal(s, steps) && !KeyOnce(Run(s, steps))
    ensures forall i :: 0 <= i < |steps| ==> SendOnly(steps[i])
  {
    hide Inv, KeyKnown, JobOk, RecipientsOk, Legal, Run, KeyOnce;
    HistoricalKeyOk(s, n, key);
    KeyedJobOk(key);
    var s1 := BeginKeyed(s, key);
    SendIsNew(s, n);
    hide Enabled, Apply, KeyedJob;
    RepeatNow(s1, n, key);
    Prepend(s, BeginSend(0, KeyedJob(key), ["a"]), [WriteSeq, AppendRecord]);
    steps := [BeginSend(0, KeyedJob(key), ["a"])] + [WriteSeq, AppendRecord];
  }

  lemma BeginKeyed(s: State, key: string) returns (t: State)
    requires Inv(s) && s.lock.Free? && !s.down && !KeyKnown(s.disk, key)
    requires JobOk(KeyedJob(key)) && RecipientsOk(["a"])
    ensures Enabled(s, BeginSend(0, KeyedJob(key), ["a"])) && t == Apply(s, BeginSend(0, KeyedJob(key), ["a"]))
    ensures Inv(t) && t.hist == s.hist && t.sends == s.sends + 1
    ensures t.lock == Held(0, Sending(KeyedJob(key), s.disk.counter + 1, ["a"], [], Ready))
  {
    hide Inv, KeyKnown, JobOk, RecipientsOk;
    t := Apply(s, BeginSend(0, KeyedJob(key), ["a"]));
    StepKeeps(s, BeginSend(0, KeyedJob(key), ["a"]));
  }

  lemma HistoricalKeyOk(s: State, n: Name, key: string)
    requires Inv(s) && HasKey(s.hist, n, key)
    ensures OneLine(key) && key != ""
  {
    assert NamesOk(s.hist, s.disk.seqs);
    assert WellFormed(s.hist[n].rec);
    hide FilesOk, HistOk, SendsOk, LiveOk, RowsOk, ReceiptsOk, PcOk, NamesOk;
  }

  lemma KeyedJobOk(key: string)
    requires OneLine(key) && key != ""
    ensures JobOk(KeyedJob(key)) && RecipientsOk(["a"])
  {
  }

  lemma SendIsNew(s: State, n: Name)
    requires Inv(s) && n in s.hist
    ensures s.hist[n].send <= s.sends
  {
    hide FilesOk, HistOk, LiveOk, RowsOk, ReceiptsOk, PcOk;
  }

  lemma AppendRepeats(s: State, n: Name, key: string)
    requires Inv(s) && SendingAt(s, false, true, false) && s.lock.pc.job.key == Some(key)
    requires HasKey(s.hist, n, key) && s.hist[n].send < s.sends
    ensures !KeyOnce(DoAppend(s))
  {
    assert SendPcOk(s, s.lock.pc);
    SendIsRecorded(s);
    var t := DoAppend(s);
    var m := (s.lock.pc.todo[0], PendingRecord(s.lock.pc).seqNo);
    hide Inv, SendPcOk, Encoding;
    assert n in t.hist && m in t.hist && t.hist[n] == s.hist[n];
  }

  lemma RepeatNow(s: State, n: Name, key: string)
    requires Inv(s) && ReadyToDeliver(s) && s.lock.pc.todo != [] && s.lock.pc.job.key == Some(key)
    requires HasKey(s.hist, n, key) && s.hist[n].send < s.sends
    ensures Legal(s, [WriteSeq, AppendRecord]) && !KeyOnce(Run(s, [WriteSeq, AppendRecord]))
  {
    hide Inv, KeyOnce;
    var s1 := Apply(s, WriteSeq);
    var s2 := Apply(s1, AppendRecord);
    StepKeeps(s, WriteSeq);
    AppendRepeats(s1, n, key);
    hide Enabled, Apply;
    assert Legal(s2, []) && Run(s2, []) == s2;
    Prepend(s1, AppendRecord, []);
    assert [AppendRecord] + [] == [AppendRecord];
    Prepend(s, WriteSeq, [AppendRecord]);
    assert [WriteSeq] + [AppendRecord] == [WriteSeq, AppendRecord];
  }

  /** No continuation that forgets no further key ever writes a key twice. */
  ghost predicate OnceFromNowOn(s: State) {
    forall steps :: Legal(s, steps) && GuardedKeys(s, steps) ==> KeyOnce(Run(s, steps))
  }

  lemma {:induction false} SendOnlyIsGuarded(s: State, steps: seq<Step>)
    requires Legal(s, steps) && forall i :: 0 <= i < |steps| ==> SendOnly(steps[i])
    ensures GuardedKeys(s, steps)
    decreases steps
  {
    hide Enabled, Apply;
    if steps != [] {
      assert SendOnly(steps[0]);
      SendOnlyIsGuarded(Apply(s, steps[0]), steps[1..]);
    }
  }

  lemma FreeAndUp(s: State, st: Step)
    requires Inv(s) && Enabled(s, st) && (st.RewriteLog? || st.RebuildIndex? || (st.Kill? && !s.down))
    ensures Apply(s, st).lock.Free? && !Apply(s, st).down
  {
    assert PcOk(s);
    hide FilesOk, HistOk, SendsOk, LiveOk, RowsOk, ReceiptsOk, Settled, RecordsIn, Lists, InsertSeq, Entries;
  }

  /** A log rewrite, an index rebuild or a kill leaves keyed sends once-only from then on exactly when
      its guard held. */
  lemma OnceIsKeptExactly(s: State, st: Step)
    requires Inv(s) && KeyInv(s) && Enabled(s, st)
    requires st.RewriteLog? || st.RebuildIndex? || (st.Kill? && !s.down)
    ensures OnceFromNowOn(Apply(s, st)) <==> KeyGuard(s, st)
  {
    var t := Apply(s, st);
    StepKeeps(s, st);
    StepKeepsKeysExactly(s, st);
    FreeAndUp(s, st);
    hide Inv, Enabled, Apply, KeyGuard, Legal, Run, KeyOnce, KeyKnown, GuardedKeys;
    if KeyGuard(s, st) {
      StepKeyed(s, st);
      forall steps | Legal(t, steps) && GuardedKeys(t, steps) ensures KeyOnce(Run(t, steps)) {
        RunKeyed(t, steps);
      }
    } else {
      var n, key :| HasKey(t.hist, n, key) && !AwaitsRow(t, n) && !KeyKnown(t.disk, key);
      var steps := ForgottenKeyRepeats(t, n, key);
      SendOnlyIsGuarded(t, steps);
    }
  }
}
