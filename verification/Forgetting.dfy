/** Concrete runs on which the unguarded promises fail: an id given twice, and a key sent twice
    with no Open in between. */
module Forgetting {
  import opened Text
  import opened Codec
  import opened CodecLaws
  import opened Storage
  import opened StorageLaws
  import opened Compaction
  import opened Protocol
  import opened Invariant
  import opened Preservation
  import opened Runs
  import opened FreshIds
  import opened KeyedSends

  // ---- Compacting a whole mailbox ----

  /** t is s with the mailbox of a moved to its archive. */
  ghost predicate Emptied(s: State, t: State, a: AgentId) {
    && Inv(t) && t.lock.Free? && !t.down && t.hist == s.hist && t.sends == s.sends
    && t.disk.counter == s.disk.counter && t.disk.rows == s.disk.rows && t.disk.logs.Keys == s.disk.logs.Keys + {a}
    && RecordsOf(t.disk.logs, a) == []
    && (forall b :: b != a ==> RecordsOf(t.disk.logs, b) == RecordsOf(s.disk.logs, b))
    && (forall r :: r in RecordsOf(s.disk.logs, a) ==> r in RecordsOf(t.disk.archives, a))
  }

  lemma SeqsWithin(s: State, a: AgentId)
    requires Inv(s)
    ensures var rs := RecordsOf(s.disk.logs, a);
            forall i :: 0 <= i < |rs| ==> rs[i].seqNo <= SeqOf(s.disk.seqs, a)
  {
    assert Named(s.disk.logs, s.hist) && NamesOk(s.hist, s.disk.seqs);
    hide Inv, RecordsOf, SeqOf, WellFormed;
    var rs := RecordsOf(s.disk.logs, a);
    forall i | 0 <= i < |rs| ensures rs[i].seqNo <= SeqOf(s.disk.seqs, a) {
      assert rs[i] in rs;
    }
  }

  lemma CutsEverything(data: Bytes, upTo: int)
    requires Settled(data) && RecordsIn(data) != []
    requires forall i :: 0 <= i < |RecordsIn(data)| ==> RecordsIn(data)[i].seqNo <= upTo
    ensures var c := CompactPoint(data, upTo);
            c.CutAt? && c.boundary > 0 && RecordsIn(data[c.boundary..]) == [] && RecordsIn(data[..c.boundary]) == RecordsIn(data)
  {
    hide ParseAll, CompactPoint;
    CompactCuts(data, upTo);
    var c := CompactPoint(data, upTo);
    var rs := RecordsIn(data);
    assert rs[..|rs|] == rs;
  }

  lemma CanArchiveAll(s: State, a: AgentId)
    requires Inv(s) && s.lock.Free? && !s.down && RecordsOf(s.disk.logs, a) != []
    ensures CanArchive(s, a, SeqOf(s.disk.seqs, a))
    ensures var data := FileOf(s.disk.logs, a);
            RecordsIn(data[CompactPoint(data, SeqOf(s.disk.seqs, a)).boundary..]) == []
  {
    assert FilesOk(s);
    hide Inv, CompactPoint, RecordsIn, Settled, Readable, SeqOf, FileOf;
    SeqsWithin(s, a);
    CutsEverything(FileOf(s.disk.logs, a), SeqOf(s.disk.seqs, a));
  }

  lemma ArchiveAll(s: State, a: AgentId)
    requires Inv(s) && s.lock.Free? && !s.down && RecordsOf(s.disk.logs, a) != []
    ensures CanArchive(s, a, SeqOf(s.disk.seqs, a))
    ensures var t := DoArchive(s, 0, a, SeqOf(s.disk.seqs, a));
            var data := FileOf(s.disk.logs, a);
            && CanRewrite(t) && t.lock.pc.agent == a && !t.down
            && t.hist == s.hist && t.sends == s.sends
            && t.disk == s.disk.(archives := t.disk.archives)
            && RecordsIn(data[t.lock.pc.boundary..]) == []
  {
    hide Inv, CompactPoint, RecordsIn, SeqOf, FileOf, RecordsOf;
    CanArchiveAll(s, a);
  }

  lemma ArchivedAll(s: State, a: AgentId)
    requires Inv(s) && s.lock.Free? && !s.down && RecordsOf(s.disk.logs, a) != []
    requires CanArchive(s, a, SeqOf(s.disk.seqs, a))
    ensures var t := DoArchive(s, 0, a, SeqOf(s.disk.seqs, a));
            forall r :: r in RecordsOf(s.disk.logs, a) ==> r in RecordsOf(t.disk.archives, a)
  {
    assert FilesOk(s);
    hide Inv, CompactPoint, RecordsIn, Settled, Readable, SeqOf, FileOf, DoArchive;
    SeqsWithin(s, a);
    CutsEverything(FileOf(s.disk.logs, a), SeqOf(s.disk.seqs, a));
    ArchiveFiles(s, 0, a, SeqOf(s.disk.seqs, a));
    assert RecordsOf(s.disk.logs, a) == RecordsIn(FileOf(s.disk.logs, a));
    hide FilesOk, RecordsOf;
  }

  lemma CompactEverything(s: State, a: AgentId) returns (t: State, steps: seq<Step>)
    requires Inv(s) && s.lock.Free? && !s.down && RecordsOf(s.disk.logs, a) != []
    ensures Legal(s, steps) && Run(s, steps) == t && Emptied(s, t, a)
    ensures forall i :: 0 <= i < |steps| ==> !steps[i].RebuildIndex?
  {
    hide Inv, SeqOf, RecordsIn, CanArchive, DoArchive;
    ArchiveAll(s, a);
    ArchivedAll(s, a);
    var first := ArchivePrefix(0, a, SeqOf(s.disk.seqs, a));
    var s1 := DoArchive(s, 0, a, SeqOf(s.disk.seqs, a));
    StepKeeps(s, first);
    StepKeeps(s1, RewriteLog);
    t := DoRewrite(s1);
    FileUpdate(s.disk.logs, a, FileOf(s.disk.logs, a)[s1.lock.pc.boundary..]);
    assert t.hist == s.hist;
    hide FileOf, RecordsOf;
    steps := [first] + [RewriteLog];
    assert Enabled(s, first) && Apply(s, first) == s1 && Enabled(s1, RewriteLog) && Apply(s1, RewriteLog) == t;
    hide Enabled, Apply;
    TwoSteps(s, first, RewriteLog, s1, t);
  }

  lemma TwoSteps(s: State, x: Step, y: Step, s1: State, s2: State)
    requires Enabled(s, x) && Apply(s, x) == s1 && Enabled(s1, y) && Apply(s1, y) == s2
    ensures Legal(s, [x] + [y]) && Run(s, [x] + [y]) == s2
  {
    hide Enabled, Apply;
    assert Legal(s2, []) && Run(s2, []) == s2;
    Prepend(s1, y, []);
    assert [y] + [] == [y];
    Prepend(s, x, [y]);
  }

  // ---- One id, two sends ----

  /** The state after one plain send on a fresh root. */
  lemma FirstSend() returns (s: State, steps: seq<Step>)
    ensures Legal(INIT, steps) && Run(INIT, steps) == s
    ensures Inv(s) && s.lock.Free? && !s.down && s.disk.logs.Keys == {"a"} && RecordsOf(s.disk.logs, "a") != []
  {
    PlainJobOk();
    InitOk();
    assert !KeyKnown(EMPTY, "");
    hide Inv, JobOk, RecipientsOk, KeyKnown, Legal, Run, Encoding, SendSteps, InsertOrReplace;
    steps := SendSteps(0, PlainJob(), ["a"]);
    SendIsRun(INIT, 0, PlainJob(), ["a"]);
    RunKeeps(INIT, steps);
    s := Run(INIT, steps);
    FirstLog();
  }

  lemma FirstLog()
    ensures AfterSend(EMPTY, PlainJob(), ["a"]).logs.Keys == {"a"}
    ensures RecordsOf(AfterSend(EMPTY, PlainJob(), ["a"]).logs, "a") != []
  {
    PlainJobOk();
    SettledNothing();
    hide JobOk, RecipientsOk, Settled, RecordsOf, DeliverAll;
    FirstIsStored(EMPTY, PlainJob(), ["a"]);
    ServedLogKeys(EMPTY.(counter := 1), PlainJob(), 1, ["a"]);
    assert (set x | x in ["a"]) == {"a"};
  }

  /** Opening a root whose only mailbox is a's leads to the counter write. */
  lemma OpenOnly(s: State) returns (t: State, steps: seq<Step>)
    requires Inv(s) && s.lock.Free? && !s.down && s.disk.logs.Keys == {"a"}
    ensures Legal(s, steps) && Run(s, steps) == t && Inv(t) && CanWriteCounter(t, ["a"])
    ensures t.hist == s.hist && SameFiles(s.disk.logs, t.disk.logs) && t.disk.archives == s.disk.archives
  {
    var order := ["a"];
    assert Lists(order, s.disk.logs);
    hide Inv, Truncated, RecordsOf, SameFiles;
    var s1 := s.(lock := Held(0, Recovering(order)));
    StepKeeps(s, BeginOpen(0, order));
    StepKeeps(s1, TruncateTail);
    t := DoTruncate(s1);
    assert order[1..] == [];
    TruncateSame(s1);
    TwoSteps(s, BeginOpen(0, order), TruncateTail, s1, t);
    steps := [BeginOpen(0, order)] + [TruncateTail];
  }

  lemma TruncateSame(s: State)
    requires Inv(s) && CanTruncate(s)
    ensures SameFiles(s.disk.logs, DoTruncate(s).disk.logs)
  {
    hide FilesOk, HistOk, SendsOk, LiveOk, RowsOk, ReceiptsOk, PcOk, CanTruncate, SameFiles;
    TruncateFiles(s);
  }

  /** A send, a compaction of everything, an Open and further sends: the second send gets the id of
      the first, whose record is still in the archive. */
  lemma IdIsGivenTwice() returns (steps: seq<Step>)
    ensures Legal(INIT, steps) && !IdsFresh(Run(INIT, steps))
  {
    hide Inv, Legal, Run, IdsFresh, RecordsOf, CanWriteCounter, Enabled, Apply;
    var s1, x1 := FirstSend();
    var s2, x2 := CompactEverything(s1, "a");
    RunConcat(INIT, x1, x2);
    var s3, x3 := OpenOnly(s2);
    RunConcat(INIT, x1 + x2, x3);
    NotBelow(s1, s2, s3);
    var s4, x4 := Recover(s3);
    RunConcat(INIT, x1 + x2 + x3, x4);
    var n :| n in s4.hist && s4.hist[n].rec.id > s4.disk.counter;
    var x5 := ReuseRun(s4, n);
    RunConcat(INIT, x1 + x2 + x3 + x4, x5);
    steps := x1 + x2 + x3 + x4 + x5;
  }

  lemma NotBelow(s1: State, s2: State, s3: State)
    requires Inv(s1) && RecordsOf(s1.disk.logs, "a") != [] && Emptied(s1, s2, "a")
    requires SameFiles(s2.disk.logs, s3.disk.logs) && s3.disk.archives == s2.disk.archives
    ensures !ArchiveBelowLive(s3, ["a"])
  {
    var r := RecordsOf(s1.disk.logs, "a")[0];
    assert Named(s1.disk.logs, s1.hist) && IdsBounded(s1.disk.logs, s1.hist, s1.disk.counter);
    hide Inv, RecordsOf;
    assert In(s1.disk.logs, s1.hist, ("a", r.seqNo));
    assert RecordsOf(s3.disk.logs, "a") == [];
    assert ["a"][..0] == [];
    assert MaxIdOver(["a"], s3.disk.logs) == 0;
    assert r in RecordsOf(s3.disk.archives, "a");
  }

  lemma Recover(s: State) returns (t: State, steps: seq<Step>)
    requires Inv(s) && CanWriteCounter(s, ["a"]) && !ArchiveBelowLive(s, ["a"])
    ensures Legal(s, steps) && Run(s, steps) == t
    ensures Inv(t) && t.lock.Free? && !t.down && !IdsWithinCounter(t)
  {
    hide Inv, ArchiveBelowLive, IdsWithinCounter, MaxIdOver, InsertSeq, Entries, Lists;
    t := Recovered(s, ["a"]);
    RecoveredOk(s, ["a"]);
    assert Enabled(s, WriteCounter(["a"])) && Apply(s, WriteCounter(["a"])) == DoWriteCounter(s, ["a"]);
    assert CanRebuild(DoWriteCounter(s, ["a"]), ["a"]);
    hide CanWriteCounter, CanRebuild, DoWriteCounter, DoRebuild;
    TwoSteps(s, WriteCounter(["a"]), RebuildIndex(["a"]), DoWriteCounter(s, ["a"]), t);
    steps := [WriteCounter(["a"])] + [RebuildIndex(["a"])];
  }

  // ---- One key, two sends, no Open ----

  ghost predicate NoRebuild(steps: seq<Step>) {
    forall i :: 0 <= i < |steps| ==> !steps[i].RebuildIndex?
  }

  lemma InitKnowsNothing()
    ensures !KeyKnown(EMPTY, "k")
  {
    assert RecordsIn("") == [];
    hide RecordsIn;
  }

  /** A keyed record is in the log and in the history, but has no row. */
  ghost predicate HalfSent(s: State) {
    && s.disk.rows == map[] && HasKey(s.hist, ("a", 1), "k") && RecordsOf(s.disk.logs, "a") != []
    && forall b :: b != "a" ==> RecordsOf(s.disk.logs, b) == []
  }

  function HalfRecord(): Record {
    RecordFor(KeyedJob("k"), 1, "a", 1)
  }

  lemma HalfLog()
    ensures var logs := AppendTo(map[], "a", Encoding(HalfRecord()));
            RecordsOf(logs, "a") == [HalfRecord()] && forall b :: b != "a" ==> RecordsOf(logs, b) == []
  {
    KeyedJobOk("k");
    assert WellFormed(HalfRecord());
    SettledNothing();
    assert RecordsIn("") == [];
    hide Encoding, WellFormed, RecordsIn, Settled, HalfRecord;
    AppendView(map[], "a", HalfRecord(), AppendTo(map[], "a", Encoding(HalfRecord())));
  }

  lemma AppendKeyed(s: State)
    requires SendingAt(s, false, true, false) && s.disk.logs == map[] && s.disk.rows == map[] && s.hist == map[]
    requires s.lock.pc == Sending(KeyedJob("k"), 1, ["a"], [], Numbered(1))
    ensures HalfSent(DoAppend(s))
  {
    hide Encoding, RecordsOf;
    HalfLog();
    assert PendingRecord(s.lock.pc) == HalfRecord();
    assert DoAppend(s).disk.logs == AppendTo(map[], "a", Encoding(HalfRecord()));
    hide AppendTo;
  }

  lemma BeginHalf() returns (s: State, t: State)
    ensures Enabled(INIT, BeginSend(0, KeyedJob("k"), ["a"])) && s == Apply(INIT, BeginSend(0, KeyedJob("k"), ["a"]))
    ensures Enabled(s, WriteSeq) && t == Apply(s, WriteSeq) && Inv(t) && SendingAt(t, false, true, false) && !t.down
    ensures t.disk.logs == map[] && t.disk.rows == map[] && t.hist == map[]
    ensures t.lock == Held(0, Sending(KeyedJob("k"), 1, ["a"], [], Numbered(1)))
  {
    KeyedJobOk("k");
    InitOk();
    InitKnowsNothing();
    hide Inv, JobOk, RecipientsOk, KeyKnown, KeyedJob;
    s := BeginKeyed(INIT, "k");
    StepKeeps(s, WriteSeq);
    t := DoWriteSeq(s);
  }

  lemma AppendAndDie(s: State) returns (t: State)
    requires Inv(s) && SendingAt(s, false, true, false) && !s.down && HalfSent(DoAppend(s))
    ensures Legal(s, [AppendRecord] + [Kill]) && Run(s, [AppendRecord] + [Kill]) == t
    ensures Inv(t) && t.lock.Free? && !t.down && HalfSent(t)
  {
    hide Inv, HalfSent, Encoding, PendingRecord, FileOf;
    var u := DoAppend(s);
    t := u.(lock := Free);
    StepKeeps(s, AppendRecord);
    StepKeeps(u, Kill);
    SameHalf(u, t);
    TwoSteps(s, AppendRecord, Kill, u, t);
  }

  lemma HalfKeyedSend() returns (s: State, steps: seq<Step>)
    ensures Legal(INIT, steps) && Run(INIT, steps) == s && NoRebuild(steps)
    ensures Inv(s) && s.lock.Free? && !s.down && HalfSent(s)
  {
    hide Inv, HalfSent, KeyedJob, Enabled, Apply, DoAppend, Legal, Run;
    var s0, s1 := BeginHalf();
    AppendKeyed(s1);
    s := AppendAndDie(s1);
    TwoSteps(INIT, BeginSend(0, KeyedJob("k"), ["a"]), WriteSeq, s0, s1);
    var head, tail := [BeginSend(0, KeyedJob("k"), ["a"])] + [WriteSeq], [AppendRecord] + [Kill];
    RunConcat(INIT, head, tail);
    steps := head + tail;
  }

  lemma SameHalf(s: State, t: State)
    requires HalfSent(s) && t.disk == s.disk && t.hist == s.hist
    ensures HalfSent(t)
  {
    hide RecordsOf;
  }

  lemma KeyIsGone(s: State, t: State)
    requires HalfSent(s) && Emptied(s, t, "a")
    ensures HasKey(t.hist, ("a", 1), "k") && !KeyKnown(t.disk, "k")
  {
    hide Inv, RecordsOf;
    forall a, r ensures !LogHasKey(t.disk.logs, a, r, "k") {
      assert RecordsOf(t.disk.logs, a) == [];
    }
  }

  /** A keyed append, a kill before its index row, a compaction by another process and a resend:
      the key is written twice although nobody opened the bus in between. */
  lemma KeyIsWrittenTwice() returns (steps: seq<Step>)
    ensures Legal(INIT, steps) && !KeyOnce(Run(INIT, steps)) && NoRebuild(steps)
  {
    hide Inv, Legal, Run, KeyOnce, RecordsOf, Enabled, Apply, KeyKnown, HasKey, HalfSent;
    var s1, x1 := HalfKeyedSend();
    HalfHasRecords(s1);
    var s2, x2 := CompactEverything(s1, "a");
    RunConcat(INIT, x1, x2);
    KeyIsGone(s1, s2);
    var x3 := ForgottenKeyRepeats(s2, ("a", 1), "k");
    RunConcat(INIT, x1 + x2, x3);
    steps := x1 + x2 + x3;
  }

  lemma HalfHasRecords(s: State)
    requires HalfSent(s)
    ensures RecordsOf(s.disk.logs, "a") != []
  {
  }
}
