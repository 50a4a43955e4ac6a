/** Every enabled step keeps the invariant. */
module Preservation {
  import opened Text
  import opened Codec
  import opened CodecLaws
  import opened Storage
  import opened StorageLaws
  import opened Compaction
  import opened Protocol
  import opened Invariant

  // ---- Steps that leave every record where it is ----

  ghost predicate SameFiles(f: Files, g: Files) {
    forall a :: RecordsOf(g, a) == RecordsOf(f, a)
  }

  lemma SameIn(f: Files, g: Files, hist: History)
    requires SameFiles(f, g)
    ensures forall n :: In(g, hist, n) <==> In(f, hist, n)
  {
    hide RecordsOf;
    forall n ensures In(g, hist, n) <==> In(f, hist, n) {
      assert RecordsOf(g, n.0) == RecordsOf(f, n.0);
    }
  }

  lemma SameNamed(f: Files, g: Files, hist: History)
    requires SameFiles(f, g) && Named(f, hist)
    ensures Named(g, hist)
  {
    hide RecordsOf;
  }

  lemma SameAscends(f: Files, g: Files)
    requires SameFiles(f, g) && Ascends(f)
    ensures Ascends(g)
  {
    hide RecordsOf, Ascending;
    forall a ensures Ascending(RecordsOf(g, a)) {
      assert RecordsOf(g, a) == RecordsOf(f, a);
    }
  }

  ghost predicate SameRecords(s: State, t: State) {
    t.hist == s.hist && SameFiles(s.disk.logs, t.disk.logs) && SameFiles(s.disk.archives, t.disk.archives)
  }

  lemma FrameNames(hist: History, seqs: map<AgentId, nat>, seqs': map<AgentId, nat>)
    requires NamesOk(hist, seqs) && forall a :: SeqOf(seqs', a) >= SeqOf(seqs, a)
    ensures NamesOk(hist, seqs')
  {
    hide SeqOf, WellFormed;
  }

  lemma FrameHist(s: State, t: State)
    requires HistOk(s) && SameRecords(s, t)
    requires forall a :: SeqOf(t.disk.seqs, a) >= SeqOf(s.disk.seqs, a)
    ensures HistOk(t)
  {
    hide Named, NamesOk, SeqOf, In, SameFiles;
    SameIn(s.disk.logs, t.disk.logs, s.hist);
    SameIn(s.disk.archives, t.disk.archives, s.hist);
    SameNamed(s.disk.logs, t.disk.logs, s.hist);
    SameNamed(s.disk.archives, t.disk.archives, s.hist);
    FrameNames(s.hist, s.disk.seqs, t.disk.seqs);
  }

  lemma FrameLive(s: State, t: State)
    requires LiveOk(s) && SameRecords(s, t)
    requires forall n :: IsLive(s, n) ==> s.hist[n].rec.id <= t.disk.counter
    ensures LiveOk(t)
  {
    hide In, SameFiles, Ascends, SameKey;
    SameIn(s.disk.logs, t.disk.logs, s.hist);
    SameAscends(s.disk.logs, t.disk.logs);
  }

  /** A step that leaves every record where it is keeps the history and log invariants if it
      lowers no seq counter and keeps the id counter above the live ids. */
  lemma Frame(s: State, t: State)
    requires HistOk(s) && SendsOk(s) && LiveOk(s)
    requires SameRecords(s, t) && t.sends >= s.sends
    requires forall a :: SeqOf(t.disk.seqs, a) >= SeqOf(s.disk.seqs, a)
    requires forall n :: IsLive(s, n) ==> s.hist[n].rec.id <= t.disk.counter
    ensures HistOk(t) && SendsOk(t) && LiveOk(t)
  {
    FrameHist(s, t);
    FrameLive(s, t);
    hide SameFiles, HistOk, LiveOk, In;
  }

  lemma LiveIdsBounded(s: State)
    requires LiveOk(s)
    ensures forall n :: IsLive(s, n) ==> 1 <= s.hist[n].rec.id <= s.disk.counter
  {
    hide In, Ascends, IdsShared, KeysShared;
  }

  /** The same, for a step that keeps both kinds of counters. */
  lemma FrameCounters(s: State, t: State)
    requires HistOk(s) && SendsOk(s) && LiveOk(s)
    requires SameRecords(s, t) && t.sends >= s.sends
    requires t.disk.seqs == s.disk.seqs && t.disk.counter >= s.disk.counter
    ensures HistOk(t) && SendsOk(t) && LiveOk(t)
  {
    hide HistOk, SendsOk, LiveOk, IsLive, SameRecords;
    LiveIdsBounded(s);
    Frame(s, t);
  }

  lemma FrameRows(s: State, t: State)
    requires RowsOk(s) && t.disk.rows == s.disk.rows
    requires forall n :: n in s.hist ==> n in t.hist && t.hist[n] == s.hist[n]
    ensures RowsOk(t)
  {
    hide UniqueKeys;
  }

  lemma FrameReceipts(s: State, t: State)
    requires ReceiptsOk(s) && t.receipts == s.receipts
    requires forall n :: n in s.hist ==> n in t.hist && t.hist[n] == s.hist[n]
    ensures ReceiptsOk(t)
  {
  }

  /** History only grows: a delivered list that is sound stays sound. */
  lemma FrameDelivered(hist: History, hist': History, delivered: seq<Delivery>, job: Job, id: int)
    requires DeliveredOk(hist, delivered, job, id)
    requires forall n :: n in hist ==> n in hist' && hist'[n] == hist[n]
    ensures DeliveredOk(hist', delivered, job, id)
  {
  }

  // ---- Taking an id ----

  lemma LiveKeysKnown(s: State)
    ensures forall n :: IsLive(s, n) && s.hist[n].rec.dedup.Some? ==> KeyKnown(s.disk, s.hist[n].rec.dedup.value)
  {
    hide RecordsOf;
    forall n | IsLive(s, n) && s.hist[n].rec.dedup.Some?
      ensures KeyKnown(s.disk, s.hist[n].rec.dedup.value)
    {
      assert LogHasKey(s.disk.logs, n.0, s.hist[n].rec, s.hist[n].rec.dedup.value);
    }
  }

  lemma BeginSendPc(s: State, pid: nat, job: Job, recipients: seq<AgentId>)
    requires SendsOk(s) && LiveOk(s) && CanBeginSend(s, job, recipients)
    ensures PcOk(DoBeginSend(s, pid, job, recipients))
  {
    LiveKeysKnown(s);
    LiveIdsBounded(s);
    hide RecipientsOk, JobOk, KeyKnown, In, LiveOk;
    assert Own(s.disk.logs, s.hist, s.sends + 1, s.disk.counter + 1, job.key);
    assert Writes(s.hist, s.sends + 1, job, s.disk.counter + 1, recipients);
  }

  lemma BeginSendKeeps(s: State, pid: nat, job: Job, recipients: seq<AgentId>)
    requires Inv(s) && CanBeginSend(s, job, recipients)
    ensures Inv(DoBeginSend(s, pid, job, recipients))
  {
    var t := DoBeginSend(s, pid, job, recipients);
    hide PcOk, RecordsOf, Settled, Readable, CanBeginSend, HistOk, SendsOk, LiveOk, RowsOk, ReceiptsOk;
    BeginSendPc(s, pid, job, recipients);
    assert FilesOk(t);
    hide FilesOk;
    FrameRows(s, t);
    FrameReceipts(s, t);
    FrameCounters(s, t);
  }

  // ---- Numbering the next record ----

  lemma NextSeqIsNew(hist: History, seqs: map<AgentId, nat>, a: AgentId)
    requires NamesOk(hist, seqs)
    ensures SeqIsNew(hist, seqs[a := SeqOf(seqs, a) + 1], a, SeqOf(seqs, a) + 1)
  {
    hide WellFormed;
  }

  lemma WriteSeqPc(s: State)
    requires NamesOk(s.hist, s.disk.seqs) && SendingAt(s, true, false, false) && SendPcOk(s, s.lock.pc)
    ensures SendPcOk(DoWriteSeq(s), DoWriteSeq(s).lock.pc)
  {
    hide RecipientsOk, JobOk, DeliveredOk, Own, Writes, SeqIsNew, NamesOk, SeqOf;
    NextSeqIsNew(s.hist, s.disk.seqs, s.lock.pc.todo[0]);
  }

  lemma WriteSeqKeeps(s: State)
    requires Inv(s) && SendingAt(s, true, false, false)
    ensures Inv(DoWriteSeq(s))
  {
    var t := DoWriteSeq(s);
    hide RecordsOf, Settled, Readable, HistOk, SendsOk, RowsOk, ReceiptsOk, SendPcOk, IsLive, Ascending, SameKey;
    WriteSeqPc(s);
    assert FilesOk(t) && PcOk(t);
    hide FilesOk, PcOk;
    FrameRows(s, t);
    FrameReceipts(s, t);
    Frame(s, t);
  }

  // ---- Returning, dying ----

  lemma FinishSendKeeps(s: State)
    requires Inv(s) && s.lock.Held? && s.lock.pc.Sending?
    ensures Inv(DoFinishSend(s))
  {
    var t := DoFinishSend(s);
    hide RecordsOf, HistOk, SendsOk, LiveOk, RowsOk, Settled, Readable, JobOk, RecipientsOk, IsLive;
    assert ReceiptsOk(t) by {
      hide DeliveredOk;
    }
    assert FilesOk(t);
    hide FilesOk, ReceiptsOk, PcOk;
    FrameRows(s, t);
    FrameCounters(s, t);
  }

  lemma KillKeeps(s: State)
    requires Inv(s)
    ensures Inv(s.(lock := Free))
  {
    var t := s.(lock := Free);
    hide RecordsOf, HistOk, SendsOk, LiveOk, RowsOk, ReceiptsOk, Settled, Readable;
    assert FilesOk(t);
    hide FilesOk;
    FrameRows(s, t);
    FrameReceipts(s, t);
    FrameCounters(s, t);
  }

  lemma LosePowerFiles(s: State, torn: nat)
    requires FilesOk(s) && PcOk(s) && CanLosePower(s, torn)
    ensures FilesOk(DoLosePower(s, torn)) && SameRecords(s, DoLosePower(s, torn))
    ensures DoLosePower(s, torn)
            == s.(disk := s.disk.(logs := DoLosePower(s, torn).disk.logs), lock := Free, down := true)
  {
    var t := DoLosePower(s, torn);
    hide RecordsOf, Settled, Readable, Encoding, Own, Writes, DeliveredOk, SeqIsNew, IsWritten, JobOk, RecipientsOk, WellFormed;
    if torn > 0 {
      var a := s.lock.pc.todo[0];
      var rec := PendingRecord(s.lock.pc);
      NextIsWellFormed(s);
      hide SendPcOk, PendingRecord;
      TornView(s.disk.logs, a, rec, torn, t.disk.logs);
      hide PcOk;
      SettledIsReadable();
    }
  }

  lemma SettledIsReadable()
    ensures forall d: Bytes :: Settled(d) ==> Readable(d)
  {
  }

  lemma LosePowerKeeps(s: State, torn: nat)
    requires Inv(s) && CanLosePower(s, torn)
    ensures Inv(DoLosePower(s, torn))
  {
    var t := DoLosePower(s, torn);
    LosePowerFiles(s, torn);
    hide FilesOk, RecordsOf, HistOk, SendsOk, LiveOk, RowsOk, ReceiptsOk, CanLosePower, DoLosePower;
    FrameRows(s, t);
    FrameReceipts(s, t);
    FrameCounters(s, t);
  }

  // ---- Open ----

  lemma SettledNothing()
    ensures Settled("")
  {
  }

  lemma BeginOpenKeeps(s: State, pid: nat, order: seq<AgentId>)
    requires Inv(s) && Lists(order, s.disk.logs)
    ensures Inv(s.(lock := Held(pid, Recovering(order))))
  {
    var t := s.(lock := Held(pid, Recovering(order)));
    hide RecordsOf, HistOk, SendsOk, LiveOk, RowsOk, ReceiptsOk, Settled, Readable;
    SettledNothing();
    assert FilesOk(t);
    hide FilesOk, Lists;
    FrameRows(s, t);
    FrameReceipts(s, t);
    FrameCounters(s, t);
  }

  lemma TruncateFiles(s: State)
    requires FilesOk(s) && CanTruncate(s)
    ensures FilesOk(DoTruncate(s)) && SameRecords(s, DoTruncate(s))
  {
    var t := DoTruncate(s);
    var a := s.lock.pc.untouched[0];
    hide RecordsOf, Settled, Readable, Truncated;
    TruncateView(s.disk.logs, a, t.disk.logs);
    SettledIsReadable();
    assert s.lock.pc.untouched == [a] + t.lock.pc.untouched;
  }

  lemma TruncateKeeps(s: State)
    requires Inv(s) && CanTruncate(s)
    ensures Inv(DoTruncate(s))
  {
    var t := DoTruncate(s);
    hide FilesOk, RecordsOf, HistOk, SendsOk, LiveOk, RowsOk, ReceiptsOk, Truncated;
    TruncateFiles(s);
    FrameRows(s, t);
    FrameReceipts(s, t);
    FrameCounters(s, t);
  }

  lemma NoRecordsOutside(files: Files)
    ensures forall a :: a !in files ==> RecordsOf(files, a) == []
  {
  }

  lemma LiveIdsBelowMax(s: State, order: seq<AgentId>)
    requires Lists(order, s.disk.logs)
    ensures forall n :: IsLive(s, n) ==> s.hist[n].rec.id <= MaxIdOver(order, s.disk.logs)
  {
    MaxIdOverBounds(order, s.disk.logs);
    NoRecordsOutside(s.disk.logs);
    hide RecordsOf, MaxIdOver;
  }

  /** Recovery may lower the counter, but never below a live id. */
  lemma WriteCounterKeeps(s: State, order: seq<AgentId>)
    requires Inv(s) && CanWriteCounter(s, order)
    ensures Inv(DoWriteCounter(s, order))
  {
    var t := DoWriteCounter(s, order);
    hide RecordsOf, HistOk, SendsOk, LiveOk, RowsOk, ReceiptsOk, Settled, Readable, MaxIdOver, IsLive;
    LiveIdsBelowMax(s, order);
    assert FilesOk(t);
    hide FilesOk, Lists;
    FrameRows(s, t);
    FrameReceipts(s, t);
    Frame(s, t);
  }

  lemma RebuiltRowsOk(s: State, order: seq<AgentId>)
    requires HistOk(s)
    ensures RowsOk(DoRebuild(s, order))
  {
    hide RecordsOf, InsertSeq, Entries, UniqueKeys, IsLive, IsCold;
    var es := Entries(order, s.disk.logs);
    InsertSeqUnique(es);
    forall n | n in InsertSeq(es) ensures n in s.hist && RowFits(InsertSeq(es)[n], s.hist[n]) {
      var k := InsertSeqSource(es, n);
      var i := EntrySource(order, s.disk.logs, k);
      assert RecordsOf(s.disk.logs, n.0)[i] in RecordsOf(s.disk.logs, n.0);
    }
  }

  lemma RebuildKeeps(s: State, order: seq<AgentId>)
    requires Inv(s) && CanRebuild(s, order)
    ensures Inv(DoRebuild(s, order))
  {
    var t := DoRebuild(s, order);
    hide RecordsOf, HistOk, SendsOk, LiveOk, RowsOk, ReceiptsOk, Settled, Readable, InsertSeq, Entries;
    RebuiltRowsOk(s, order);
    assert FilesOk(t);
    hide FilesOk, Lists;
    FrameReceipts(s, t);
    FrameCounters(s, t);
  }

  // ---- Appending a record ----

  /** What the append does to the records, with the bytes out of sight. */
  ghost predicate Appended(logs: Files, logs': Files, a: AgentId, rec: Record) {
    && RecordsOf(logs', a) == RecordsOf(logs, a) + [rec]
    && (forall b :: b != a ==> RecordsOf(logs', b) == RecordsOf(logs, b))
  }

  lemma PendingIsWellFormed(pc: Pc)
    requires pc.Sending? && pc.todo != [] && !pc.stage.Ready? && JobOk(pc.job) && RecipientsOk(pc.todo)
    ensures WellFormed(PendingRecord(pc))
  {
  }

  lemma AppendToLogs(logs: Files, a: AgentId, rec: Record, logs': Files)
    requires (forall b :: Settled(FileOf(logs, b))) && WellFormed(rec)
    requires logs' == AppendTo(logs, a, Encoding(rec))
    ensures forall b :: Settled(FileOf(logs', b))
    ensures Appended(logs, logs', a, rec)
  {
    hide RecordsOf, Settled, FileOf, Encoding, WellFormed;
    AppendView(logs, a, rec, logs');
    forall b ensures Settled(FileOf(logs', b)) {
      if b != a {
        assert Settled(FileOf(logs, b));
      }
    }
  }

  lemma AppendFiles(s: State)
    requires FilesOk(s) && PcOk(s) && SendingAt(s, false, true, false)
    ensures FilesOk(DoAppend(s))
    ensures Appended(s.disk.logs, DoAppend(s).disk.logs, s.lock.pc.todo[0], PendingRecord(s.lock.pc))
  {
    assert SendPcOk(s, s.lock.pc);
    hide RecordsOf, Settled, Readable, Encoding, Own, Writes, DeliveredOk, SeqIsNew, WellFormed, Appended;
    PendingIsWellFormed(s.lock.pc);
    hide PcOk, JobOk, RecipientsOk;
    AppendToLogs(s.disk.logs, s.lock.pc.todo[0], PendingRecord(s.lock.pc), DoAppend(s).disk.logs);
    SettledIsReadable();
  }

  ghost predicate Recorded(hist: History, hist': History, a: AgentId, rec: Record, send: nat) {
    && (a, rec.seqNo) !in hist && (a, rec.seqNo) in hist'
    && var e := hist'[(a, rec.seqNo)];
       e.send == send && e.rec == rec && rec.dedup == StoredKey(e.key) && hist' == hist[(a, rec.seqNo) := e]
  }

  ghost predicate Titled(hist: History) {
    forall n :: n in hist ==> hist[n].rec.seqNo == n.1
  }

  lemma AppendedIn(logs: Files, logs': Files, hist: History, hist': History, a: AgentId, rec: Record, send: nat)
    requires Appended(logs, logs', a, rec) && Recorded(hist, hist', a, rec, send) && Titled(hist)
    ensures forall n :: In(logs', hist', n) <==> n == (a, rec.seqNo) || In(logs, hist, n)
  {
    hide RecordsOf;
    forall n ensures In(logs', hist', n) <==> n == (a, rec.seqNo) || In(logs, hist, n) {
      if n.0 == a {
        assert RecordsOf(logs', a) == RecordsOf(logs, a) + [rec];
      } else {
        assert RecordsOf(logs', n.0) == RecordsOf(logs, n.0);
      }
    }
  }

  lemma RecordedIn(files: Files, hist: History, hist': History, a: AgentId, rec: Record, send: nat)
    requires Recorded(hist, hist', a, rec, send)
    ensures forall n :: In(files, hist, n) ==> In(files, hist', n)
  {
    hide RecordsOf;
  }

  lemma AppendedNamed(logs: Files, logs': Files, hist: History, hist': History, a: AgentId, rec: Record, send: nat)
    requires Appended(logs, logs', a, rec) && Recorded(hist, hist', a, rec, send) && Named(logs, hist)
    ensures Named(logs', hist')
  {
    hide RecordsOf;
    forall b, r | r in RecordsOf(logs', b) ensures (b, r.seqNo) in hist' && hist'[(b, r.seqNo)].rec == r {
      assert (b == a && r == rec) || r in RecordsOf(logs, b);
    }
  }

  lemma RecordedNamed(files: Files, hist: History, hist': History, a: AgentId, rec: Record, send: nat)
    requires Recorded(hist, hist', a, rec, send) && Named(files, hist)
    ensures Named(files, hist')
  {
    hide RecordsOf;
  }

  lemma RecordedTitled(s: State)
    requires HistOk(s)
    ensures Titled(s.hist)
  {
    hide Named, Kept, SeqOf, WellFormed;
  }

  lemma RecordedNames(hist: History, hist': History, a: AgentId, rec: Record, send: nat, seqs: map<AgentId, nat>)
    requires NamesOk(hist, seqs) && Recorded(hist, hist', a, rec, send)
    requires rec.to == a && 1 <= rec.seqNo <= SeqOf(seqs, a) && WellFormed(rec)
    ensures NamesOk(hist', seqs)
  {
    hide SeqOf, WellFormed;
  }

  lemma AppendHist(s: State, t: State, a: AgentId, rec: Record)
    requires HistOk(s)
    requires Appended(s.disk.logs, t.disk.logs, a, rec) && Recorded(s.hist, t.hist, a, rec, s.sends)
    requires t.disk.archives == s.disk.archives && t.disk.seqs == s.disk.seqs
    requires rec.to == a && 1 <= rec.seqNo <= SeqOf(s.disk.seqs, a) && WellFormed(rec)
    ensures HistOk(t)
  {
    RecordedTitled(s);
    hide Named, SeqOf, In, Appended, Titled, NamesOk, WellFormed;
    RecordedNames(s.hist, t.hist, a, rec, s.sends, s.disk.seqs);
    AppendedIn(s.disk.logs, t.disk.logs, s.hist, t.hist, a, rec, s.sends);
    RecordedIn(s.disk.archives, s.hist, t.hist, a, rec, s.sends);
    AppendedNamed(s.disk.logs, t.disk.logs, s.hist, t.hist, a, rec, s.sends);
    RecordedNamed(s.disk.archives, s.hist, t.hist, a, rec, s.sends);
  }

  lemma AppendSends(s: State, t: State, a: AgentId, rec: Record)
    requires SendsOk(s) && Recorded(s.hist, t.hist, a, rec, s.sends) && t.sends == s.sends
    requires forall n :: n in s.hist && s.hist[n].send == s.sends ==>
               s.hist[n].rec.id == rec.id && s.hist[n].rec.dedup == rec.dedup && n.0 != a
    ensures SendsOk(t)
  {
  }

  lemma AppendAscends(logs: Files, logs': Files, hist: History, a: AgentId, rec: Record)
    requires Named(logs, hist) && Ascends(logs) && Appended(logs, logs', a, rec)
    requires forall n :: n in hist && n.0 == a ==> n.1 < rec.seqNo
    requires forall n :: In(logs, hist, n) && n.0 == a ==> hist[n].rec.id < rec.id
    ensures Ascends(logs')
  {
    var rs := RecordsOf(logs, a);
    hide RecordsOf;
    forall i | 0 <= i < |rs| ensures rs[i].seqNo < rec.seqNo && rs[i].id < rec.id {
      assert rs[i] in rs;
      assert In(logs, hist, (a, rs[i].seqNo));
    }
    forall b ensures Ascending(RecordsOf(logs', b)) {
      assert Ascending(RecordsOf(logs, b));
    }
  }

  /** The running send may add a record without breaking the sharing rules. */
  lemma AppendShares(logs: Files, logs': Files, hist: History, hist': History, a: AgentId, rec: Record, send: nat)
    requires Appended(logs, logs', a, rec) && Recorded(hist, hist', a, rec, send) && Titled(hist)
    requires IdsShared(logs, hist) && KeysShared(logs, hist)
    requires forall n :: In(logs, hist, n) && (hist[n].rec.id == rec.id || SameKey(hist[n].rec, rec)) ==>
               hist[n].send == send
    ensures IdsShared(logs', hist') && KeysShared(logs', hist')
  {
    AppendedIn(logs, logs', hist, hist', a, rec, send);
    hide In, Appended, Titled;
  }

  lemma AppendLive(s: State, t: State, a: AgentId, rec: Record)
    requires LiveOk(s) && Titled(s.hist)
    requires Appended(s.disk.logs, t.disk.logs, a, rec) && Recorded(s.hist, t.hist, a, rec, s.sends)
    requires t.disk.counter == s.disk.counter && 1 <= rec.id <= s.disk.counter
    requires Ascends(t.disk.logs)
    requires Own(s.disk.logs, s.hist, s.sends, rec.id, rec.dedup)
    ensures LiveOk(t)
  {
    hide In, Ascends, Appended, Titled;
    AppendedIn(s.disk.logs, t.disk.logs, s.hist, t.hist, a, rec, s.sends);
    AppendShares(s.disk.logs, t.disk.logs, s.hist, t.hist, a, rec, s.sends);
    hide IdsShared, KeysShared;
  }

  lemma AppendOwn(
    logs: Files, logs': Files, hist: History, hist': History, a: AgentId, rec: Record, send: nat, id: int, key: Option<string>)
    requires Own(logs, hist, send, id, key) && Titled(hist)
    requires Appended(logs, logs', a, rec) && Recorded(hist, hist', a, rec, send)
    ensures Own(logs', hist', send, id, key) && In(logs', hist', (a, rec.seqNo))
  {
    AppendedIn(logs, logs', hist, hist', a, rec, send);
    hide In, Appended, Titled;
  }

  lemma AppendWrites(hist: History, hist': History, job: Job, id: int, untouched: seq<AgentId>, a: AgentId, q: int, send: nat)
    requires Writes(hist, send, job, id, [a] + untouched) && a !in untouched
    requires Recorded(hist, hist', a, RecordFor(job, id, a, q), send) && hist'[(a, q)].key == job.key
    ensures Writes(hist', send, job, id, untouched)
  {
  }

  lemma AppendNewest(s: State, t: State, n: Name)
    requires RowsOk(s) && t.disk.rows == s.disk.rows && SeqIsNew(s.hist, s.disk.seqs, n.0, n.1)
    requires forall m :: m in t.hist ==> m == n || m in s.hist
    ensures IsNewest(t, n)
  {
    hide UniqueKeys, SeqOf, RowFits;
  }

  lemma AppendPc(s: State, t: State)
    requires SendingAt(s, false, true, false) && SendPcOk(s, s.lock.pc) && Titled(s.hist) && t == DoAppend(s) && RowsOk(s)
    requires Appended(s.disk.logs, t.disk.logs, s.lock.pc.todo[0], PendingRecord(s.lock.pc))
    requires Recorded(s.hist, t.hist, s.lock.pc.todo[0], PendingRecord(s.lock.pc), s.sends)
    ensures SendPcOk(t, t.lock.pc)
  {
    var pc, pc' := s.lock.pc, t.lock.pc;
    var a, rec := pc.todo[0], PendingRecord(pc);
    assert pc.todo == [a] + Untouched(pc') && a !in Untouched(pc');
    hide JobOk, In, DeliveredOk, Encoding, SeqIsNew, Appended, Own, Writes, Titled, RecipientsOk, RowsOk, IsNewest;
    HistoryGrows(s.hist, t.hist, a, rec, s.sends);
    FrameDelivered(s.hist, t.hist, pc.delivered, pc.job, pc.id);
    AppendOwn(s.disk.logs, t.disk.logs, s.hist, t.hist, a, rec, s.sends, pc.id, pc.job.key);
    AppendWrites(s.hist, t.hist, pc.job, pc.id, Untouched(pc'), a, rec.seqNo, s.sends);
    AppendNewest(s, t, (a, rec.seqNo));
  }

  lemma SendIsRecorded(s: State)
    requires SendingAt(s, false, true, false) && SendPcOk(s, s.lock.pc)
    ensures Recorded(s.hist, DoAppend(s).hist, s.lock.pc.todo[0], PendingRecord(s.lock.pc), s.sends)
  {
    hide RecipientsOk, JobOk, DeliveredOk, Own, Writes, Encoding;
  }

  /** Every live record in the next recipient's log has a smaller id than the running send. */
  lemma SmallerIds(s: State, a: AgentId, id: int, key: Option<string>, job: Job, untouched: seq<AgentId>)
    requires IdsBounded(s.disk.logs, s.hist, s.disk.counter) && Own(s.disk.logs, s.hist, s.sends, id, key)
    requires Writes(s.hist, s.sends, job, id, untouched) && a in untouched && s.disk.counter == id
    ensures forall n :: In(s.disk.logs, s.hist, n) && n.0 == a ==> s.hist[n].rec.id < id
  {
    hide RecordsOf;
  }

  lemma WrittenBySend(hist: History, send: nat, job: Job, id: int, untouched: seq<AgentId>, a: AgentId)
    requires Writes(hist, send, job, id, untouched) && a in untouched
    ensures forall n :: n in hist && hist[n].send == send ==>
              hist[n].rec.id == id && hist[n].rec.dedup == StoredKey(job.key) && n.0 != a
  {
  }

  lemma HistoryGrows(hist: History, hist': History, a: AgentId, rec: Record, send: nat)
    requires Recorded(hist, hist', a, rec, send)
    ensures forall n :: n in hist ==> n in hist' && hist'[n] == hist[n]
  {
  }

  lemma NextIsWellFormed(s: State)
    requires SendingAt(s, false, true, false) && SendPcOk(s, s.lock.pc)
    ensures WellFormed(PendingRecord(s.lock.pc))
  {
    hide Own, Writes, DeliveredOk, SeqIsNew, WellFormed, JobOk, RecipientsOk, IsWritten;
    PendingIsWellFormed(s.lock.pc);
  }

  lemma AppendKeeps(s: State)
    requires Inv(s) && SendingAt(s, false, true, false)
    ensures Inv(DoAppend(s))
  {
    var t := DoAppend(s);
    var pc := s.lock.pc;
    var a, rec := pc.todo[0], PendingRecord(pc);
    assert SendPcOk(s, pc);
    hide FilesOk, RowsOk, ReceiptsOk, SendsOk, Encoding, In, JobOk, RecipientsOk, Named, Kept, NamesOk,
      DeliveredOk, Ascends, IdsShared, KeysShared, IdsBounded, Appended, Titled, Recorded, Own, Writes, SeqOf;
    NextIsWellFormed(s);
    hide WellFormed;
    AppendFiles(s);
    SendIsRecorded(s);
    RecordedTitled(s);
    AppendPc(s, t);
    AppendHist(s, t, a, rec);
    SmallerIds(s, a, pc.id, pc.job.key, pc.job, Untouched(pc));
    WrittenBySend(s.hist, s.sends, pc.job, pc.id, Untouched(pc), a);
    AppendSends(s, t, a, rec);
    AppendAscends(s.disk.logs, t.disk.logs, s.hist, a, rec);
    AppendLive(s, t, a, rec);
    HistoryGrows(s.hist, t.hist, a, rec, s.sends);
    FrameRows(s, t);
    FrameReceipts(s, t);
  }

  // ---- Inserting the index row ----

  lemma InsertRowRows(s: State)
    requires RowsOk(s) && SendingAt(s, false, false, true) && IsWritten(s, s.lock.pc)
    ensures RowsOk(DoInsertRow(s))
  {
    var rec := PendingRecord(s.lock.pc);
    hide UniqueKeys, In;
    InsertKeepsUnique(s.disk.rows, (s.lock.pc.todo[0], rec.seqNo), RowFor(s.lock.pc.job, s.lock.pc.id));
  }

  lemma DeliverOne(hist: History, pc: Pc, send: nat)
    requires pc.Sending? && pc.todo != [] && pc.stage.Written?
    requires DeliveredOk(hist, pc.delivered, pc.job, pc.id)
    requires (pc.todo[0], pc.stage.seqNo as int) in hist
    requires hist[(pc.todo[0], pc.stage.seqNo as int)].rec == PendingRecord(pc)
    ensures DeliveredOk(hist, pc.delivered + [Delivery(pc.todo[0], pc.stage.seqNo)], pc.job, pc.id)
  {
  }

  lemma InsertRowPc(s: State)
    requires SendingAt(s, false, false, true) && SendPcOk(s, s.lock.pc)
    ensures SendPcOk(DoInsertRow(s), DoInsertRow(s).lock.pc)
  {
    hide Own, Writes, JobOk, RecordsOf;
    var pc, pc' := s.lock.pc, DoInsertRow(s).lock.pc;
    assert pc'.todo == Untouched(pc) == Untouched(pc');
    DeliverOne(s.hist, pc, s.sends);
    hide In, DeliveredOk;
  }

  lemma InsertRowParts(s: State)
    requires FilesOk(s) && RowsOk(s) && SendingAt(s, false, false, true) && SendPcOk(s, s.lock.pc)
    ensures FilesOk(DoInsertRow(s)) && PcOk(DoInsertRow(s)) && RowsOk(DoInsertRow(s))
  {
    hide RowsOk, SendPcOk, Settled, Readable, In, IsWritten;
    WrittenPc(s);
    InsertRowRows(s);
    InsertRowPc(s);
  }

  lemma InsertRowKeeps(s: State)
    requires Inv(s) && SendingAt(s, false, false, true)
    ensures Inv(DoInsertRow(s))
  {
    var t := DoInsertRow(s);
    assert SendPcOk(s, s.lock.pc);
    hide FilesOk, PcOk, RowsOk, SendPcOk, HistOk, LiveOk, SendsOk, ReceiptsOk, SameRecords;
    InsertRowParts(s);
    SameFilesRefl(s, t);
    hide SendingAt;
    FrameReceipts(s, t);
    FrameCounters(s, t);
  }

  lemma WrittenPc(s: State)
    requires SendingAt(s, false, false, true) && SendPcOk(s, s.lock.pc)
    ensures IsWritten(s, s.lock.pc)
  {
    hide Own, Writes, JobOk, In, RecipientsOk, DeliveredOk;
  }

  lemma SameFilesRefl(s: State, t: State)
    requires t.disk.logs == s.disk.logs && t.disk.archives == s.disk.archives && t.hist == s.hist
    ensures SameRecords(s, t)
  {
    hide RecordsOf;
  }

  // ---- Compaction ----

  lemma CutRecords(data: Bytes, upTo: int)
    requires Settled(data)
    ensures CompactPoint(data, upTo).CutAt?
    ensures var b := CompactPoint(data, upTo).boundary;
            && Settled(data[..b]) && Settled(data[b..])
            && RecordsIn(data) == RecordsIn(data[..b]) + RecordsIn(data[b..])
  {
    hide ParseAll, CompactPoint;
    CompactCuts(data, upTo);
  }

  /** What the archive append does to the archives: they stay settled, nothing leaves them, and
      what enters comes from the given prefix. */
  lemma GrowArchive(archives: Files, a: AgentId, prefix: Bytes)
    requires (forall b :: Settled(FileOf(archives, b))) && Settled(prefix)
    ensures var archives' := AppendTo(archives, a, prefix);
            && (forall b :: Settled(FileOf(archives', b)))
            && (forall b :: b != a ==> RecordsOf(archives', b) == RecordsOf(archives, b))
            && RecordsOf(archives', a) == RecordsOf(archives, a) + RecordsIn(prefix)
  {
    var archives' := AppendTo(archives, a, prefix);
    SettledIsReadable();
    hide ParseAll, Settled, Readable, RecordsIn;
    SettledConcat(FileOf(archives, a), prefix);
    FileUpdate(archives, a, FileOf(archives, a) + prefix);
    hide FileOf;
    forall b ensures Settled(FileOf(archives', b)) {
      if b != a {
        assert Settled(FileOf(archives, b));
      }
    }
  }

  ghost predicate Grown(logs: Files, archives: Files, archives': Files, a: AgentId, moved: seq<Record>) {
    && (forall r :: r in moved ==> r in RecordsOf(logs, a))
    && (forall b :: b != a ==> RecordsOf(archives', b) == RecordsOf(archives, b))
    && RecordsOf(archives', a) == RecordsOf(archives, a) + moved
  }

  lemma ArchiveFiles(s: State, pid: nat, a: AgentId, upTo: int)
    requires FilesOk(s) && CanArchive(s, a, upTo)
    ensures FilesOk(DoArchive(s, pid, a, upTo)) && PcOk(DoArchive(s, pid, a, upTo))
    ensures var b := CompactPoint(FileOf(s.disk.logs, a), upTo).boundary;
            Grown(s.disk.logs, s.disk.archives, DoArchive(s, pid, a, upTo).disk.archives, a,
                  RecordsIn(FileOf(s.disk.logs, a)[..b]))
  {
    var data := FileOf(s.disk.logs, a);
    hide Settled, Readable, RecordsIn, CompactPoint;
    CutRecords(data, upTo);
    GrowArchive(s.disk.archives, a, data[..CompactPoint(data, upTo).boundary]);
  }

  lemma GrownIn(logs: Files, archives: Files, archives': Files, a: AgentId, moved: seq<Record>, hist: History)
    requires Grown(logs, archives, archives', a, moved) && Named(archives, hist) && Named(logs, hist)
    ensures forall n :: In(archives, hist, n) ==> In(archives', hist, n)
    ensures Named(archives', hist)
  {
    hide RecordsOf;
    forall n | In(archives, hist, n) ensures In(archives', hist, n) {
      assert RecordsOf(archives', n.0) == RecordsOf(archives, n.0) + if n.0 == a then moved else [];
    }
    forall b, r | r in RecordsOf(archives', b) ensures (b, r.seqNo) in hist && hist[(b, r.seqNo)].rec == r {
      assert r in RecordsOf(archives, b) || (b == a && r in moved);
    }
  }

  lemma ArchiveKeeps(s: State, pid: nat, a: AgentId, upTo: int)
    requires Inv(s) && CanArchive(s, a, upTo)
    ensures Inv(DoArchive(s, pid, a, upTo))
  {
    var t := DoArchive(s, pid, a, upTo);
    hide FilesOk, PcOk, SendsOk, LiveOk, RowsOk, ReceiptsOk, Named, NamesOk, In, Grown, CompactPoint;
    ArchiveFiles(s, pid, a, upTo);
    var moved := RecordsIn(FileOf(s.disk.logs, a)[..CompactPoint(FileOf(s.disk.logs, a), upTo).boundary]);
    GrownIn(s.disk.logs, s.disk.archives, t.disk.archives, a, moved, s.hist);
    FrameRows(s, t);
    FrameReceipts(s, t);
    LiveOnlyLogs(s, t);
  }

  /** LiveOk and SendsOk do not look at archives. */
  lemma LiveOnlyLogs(s: State, t: State)
    requires LiveOk(s) && SendsOk(s)
    requires t.disk.logs == s.disk.logs && t.hist == s.hist && t.disk.counter == s.disk.counter && t.sends == s.sends
    ensures LiveOk(t) && SendsOk(t)
  {
    hide In, Ascends, IdsBounded, IdsShared, KeysShared;
  }

  // ---- The rewrite ----

  /** The log of one agent loses records that are archived. */
  ghost predicate Shrunk(logs: Files, logs': Files, archives: Files, a: AgentId, moved: seq<Record>) {
    && RecordsOf(logs, a) == moved + RecordsOf(logs', a)
    && (forall b :: b != a ==> RecordsOf(logs', b) == RecordsOf(logs, b))
    && (forall r :: r in moved ==> r in RecordsOf(archives, a))
  }

  lemma ShrinkLog(logs: Files, archives: Files, a: AgentId, moved: seq<Record>, rest: Bytes, logs': Files)
    requires Settled(rest) && RecordsOf(logs, a) == moved + RecordsIn(rest)
    requires forall r :: r in moved ==> r in RecordsOf(archives, a)
    requires forall c :: Settled(FileOf(logs, c))
    requires logs' == logs[a := rest]
    ensures forall c :: Settled(FileOf(logs', c))
    ensures Shrunk(logs, logs', archives, a, moved)
  {
    hide Settled, RecordsIn;
    FileUpdate(logs, a, rest);
    hide FileOf, RecordsOf;
    forall c ensures Settled(FileOf(logs', c)) {
      if c != a {
        assert Settled(FileOf(logs, c));
      }
    }
  }

  lemma RewriteFiles(s: State)
    requires FilesOk(s) && PcOk(s) && CanRewrite(s)
    ensures FilesOk(DoRewrite(s))
    ensures Shrunk(s.disk.logs, DoRewrite(s).disk.logs, s.disk.archives, s.lock.pc.agent,
                   RecordsIn(FileOf(s.disk.logs, s.lock.pc.agent)[..s.lock.pc.boundary]))
  {
    hide Settled, Readable, RecordsIn, RecordsOf, Shrunk;
    SettledIsReadable();
    var a, b := s.lock.pc.agent, s.lock.pc.boundary;
    ShrinkLog(s.disk.logs, s.disk.archives, a, RecordsIn(FileOf(s.disk.logs, a)[..b]), FileOf(s.disk.logs, a)[b..],
              DoRewrite(s).disk.logs);
  }

  lemma ShrunkIn(logs: Files, logs': Files, archives: Files, a: AgentId, moved: seq<Record>, hist: History)
    requires Shrunk(logs, logs', archives, a, moved) && Named(logs, hist)
    ensures forall n :: In(logs', hist, n) ==> In(logs, hist, n)
    ensures forall n :: In(logs, hist, n) ==> In(logs', hist, n) || In(archives, hist, n)
    ensures Named(logs', hist)
  {
    hide RecordsOf;
    forall b, r | r in RecordsOf(logs', b) ensures r in RecordsOf(logs, b) {
      if b == a {
        assert r in moved + RecordsOf(logs', a);
      }
    }
    forall n | In(logs, hist, n) ensures In(logs', hist, n) || In(archives, hist, n) {
      if n.0 == a {
        assert hist[n].rec in moved + RecordsOf(logs', a);
      }
    }
  }

  lemma SuffixAscends(moved: seq<Record>, rest: seq<Record>)
    requires Ascending(moved + rest)
    ensures Ascending(rest)
  {
    var rs := moved + rest;
    forall i, j | 0 <= i < j < |rest| ensures rest[i].seqNo < rest[j].seqNo && rest[i].id < rest[j].id {
      assert rest[i] == rs[|moved| + i] && rest[j] == rs[|moved| + j];
    }
  }

  lemma ShrunkAscends(logs: Files, logs': Files, archives: Files, a: AgentId, moved: seq<Record>)
    requires Shrunk(logs, logs', archives, a, moved) && Ascends(logs)
    ensures Ascends(logs')
  {
    hide RecordsOf, Ascending;
    forall b ensures Ascending(RecordsOf(logs', b)) {
      assert Ascending(RecordsOf(logs, b));
      if b == a {
        SuffixAscends(moved, RecordsOf(logs', a));
      }
    }
  }

  lemma ShrunkHist(s: State, t: State, a: AgentId, moved: seq<Record>)
    requires HistOk(s) && t.hist == s.hist && t.disk.archives == s.disk.archives && t.disk.seqs == s.disk.seqs
    requires Shrunk(s.disk.logs, t.disk.logs, s.disk.archives, a, moved)
    ensures HistOk(t)
  {
    hide Named, NamesOk, In, Shrunk;
    ShrunkIn(s.disk.logs, t.disk.logs, s.disk.archives, a, moved, s.hist);
  }

  lemma ShrunkLive(s: State, t: State, a: AgentId, moved: seq<Record>)
    requires LiveOk(s) && Named(s.disk.logs, s.hist) && t.hist == s.hist && t.disk.counter == s.disk.counter
    requires Shrunk(s.disk.logs, t.disk.logs, s.disk.archives, a, moved)
    ensures LiveOk(t)
  {
    hide Named, In, Shrunk, Ascends, SameKey;
    ShrunkIn(s.disk.logs, t.disk.logs, s.disk.archives, a, moved, s.hist);
    ShrunkAscends(s.disk.logs, t.disk.logs, s.disk.archives, a, moved);
  }

  lemma RewriteKeeps(s: State)
    requires Inv(s) && CanRewrite(s)
    ensures Inv(DoRewrite(s))
  {
    var t := DoRewrite(s);
    var a := s.lock.pc.agent;
    var moved := RecordsIn(FileOf(s.disk.logs, a)[..s.lock.pc.boundary]);
    hide FilesOk, PcOk, SendsOk, LiveOk, RowsOk, ReceiptsOk, Named, Kept, NamesOk, Shrunk, RecordsIn;
    RewriteFiles(s);
    assert Named(s.disk.logs, s.hist);
    ShrunkLive(s, t, a, moved);
    hide HistOk;
    ShrunkHist(s, t, a, moved);
    FrameRows(s, t);
    FrameReceipts(s, t);
    SendsFrame(s, t);
    assert PcOk(t) by { FreeIsOk(t); }
  }

  lemma FreeIsOk(t: State)
    requires t.lock.Free?
    ensures PcOk(t)
  {
  }

  lemma SendsFrame(s: State, t: State)
    requires SendsOk(s) && t.hist == s.hist && t.sends >= s.sends
    ensures SendsOk(t)
  {
  }

  // ---- Every step ----

  lemma InitOk()
    ensures Inv(INIT)
  {
    SettledNothing();
    SettledIsReadable();
    assert RecordsIn("") == [];
    hide Settled, Readable, RecordsIn;
    assert forall a :: FileOf(EMPTY.logs, a) == "" && FileOf(EMPTY.archives, a) == "";
  }

  lemma StepKeeps(s: State, st: Step)
    requires Inv(s) && Enabled(s, st)
    ensures Inv(Apply(s, st))
  {
    hide Inv, CanBeginSend, CanArchive, CanRewrite, CanTruncate, CanWriteCounter, CanRebuild, CanLosePower,
      DoBeginSend, DoWriteSeq, DoAppend, DoInsertRow, DoFinishSend, DoArchive, DoRewrite, DoTruncate, DoWriteCounter,
      DoRebuild, DoLosePower, SendingAt, Lists;
    match st
    case BeginSend(pid, job, recipients) => BeginSendKeeps(s, pid, job, recipients);
    case WriteSeq => WriteSeqKeeps(s);
    case AppendRecord => AppendKeeps(s);
    case InsertRow => InsertRowKeeps(s);
    case FinishSend => FinishSendKeeps(s);
    case ArchivePrefix(pid, a, upTo) => ArchiveKeeps(s, pid, a, upTo);
    case RewriteLog => RewriteKeeps(s);
    case BeginOpen(pid, order) => BeginOpenKeeps(s, pid, order);
    case TruncateTail => TruncateKeeps(s);
    case WriteCounter(order) => WriteCounterKeeps(s, order);
    case RebuildIndex(order) => RebuildKeeps(s, order);
    case Kill => KillKeeps(s);
    case PowerLoss(torn) => LosePowerKeeps(s, torn);
  }
}
