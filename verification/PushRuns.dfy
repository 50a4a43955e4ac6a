/** The pusher beside running sends: a mailbox whose owner every tick knows, while other processes send, die,
    recover and compact no further than the pusher's mark. */
module PushRuns {
  import opened Text
  import opened Codec
  import opened Storage
  import opened Compaction
  import opened Protocol
  import opened Invariant
  import opened Preservation
  import opened Runs
  import opened Pusher
  import C = CursorRuns
  import I = IndexCoverage

  /** The pusher's own state is its marks; out is everything pushed so far. */
  datatype Watcher = Watcher(s: State, marks: Watermarks, out: seq<Push>)

  /** A completed tick stands at the moment it reads the mailbox; its other visits may be earlier or later. */
  datatype Move = Bus(st: Step) | Tick(visits: seq<Visit>)

  /** The tick reads the mailbox, if it visits it, as it is now, and knows its owner. */
  ghost predicate ReadsNow(x: Watcher, a: AgentId, visits: seq<Visit>) {
    && OncePerMailbox(visits)
    && forall i :: 0 <= i < |visits| && visits[i].agent == a ==>
         visits[i].data == Some(FileOf(x.s.disk.logs, a)) && a in visits[i].seen
  }

  /** A rewrite of the mailbox's log removes only what is at or below the mark. */
  ghost predicate CanMove(x: Watcher, a: AgentId, move: Move) {
    match move
    case Bus(st) => Enabled(x.s, st) && (st.RewriteLog? ==> C.Consumed(x.s, a, MarkOf(x.marks, a)))
    case Tick(visits) => ReadsNow(x, a, visits)
  }

  ghost function DoMove(x: Watcher, a: AgentId, move: Move): Watcher
    requires CanMove(x, a, move)
  {
    match move
    case Bus(st) => x.(s := Apply(x.s, st))
    case Tick(visits) => Watcher(x.s, MarksAfter(x.marks, visits), x.out + TickPushes(x.marks, visits))
  }

  ghost predicate LegalMoves(x: Watcher, a: AgentId, moves: seq<Move>)
    decreases moves
  {
    moves == [] || (CanMove(x, a, moves[0]) && LegalMoves(DoMove(x, a, moves[0]), a, moves[1..]))
  }

  ghost function RunMoves(x: Watcher, a: AgentId, moves: seq<Move>): Watcher
    requires LegalMoves(x, a, moves)
    decreases moves
  {
    if moves == [] then x else RunMoves(DoMove(x, a, moves[0]), a, moves[1..])
  }

  // ---- What was pushed of the mailbox ----

  function RecordsFor(pushes: seq<Push>, a: AgentId): seq<Record> {
    if pushes == [] then []
    else
      RecordsFor(pushes[..|pushes| - 1], a)
      + if pushes[|pushes| - 1].mailbox == a then [pushes[|pushes| - 1].rec] else []
  }

  lemma {:induction false} RecordsForConcat(xs: seq<Push>, ys: seq<Push>, a: AgentId)
    ensures RecordsFor(xs + ys, a) == RecordsFor(xs, a) + RecordsFor(ys, a)
  {
    if ys == [] {
      assert xs + ys == xs;
    } else {
      assert (xs + ys)[..|xs + ys| - 1] == xs + ys[..|ys| - 1];
      RecordsForConcat(xs, ys[..|ys| - 1], a);
    }
  }

  lemma {:induction false} RecordsForMember(pushes: seq<Push>, a: AgentId, r: Record)
    ensures r in RecordsFor(pushes, a) <==> Push(a, r) in pushes
  {
    if pushes != [] {
      var init, last := pushes[..|pushes| - 1], pushes[|pushes| - 1];
      assert pushes == init + [last];
      RecordsForMember(init, a, r);
    }
  }

  lemma {:induction false} RecordsForSeqs(pushes: seq<Push>, a: AgentId)
    ensures |RecordsFor(pushes, a)| == |SeqsFor(pushes, a)|
    ensures forall i :: 0 <= i < |RecordsFor(pushes, a)| ==> RecordsFor(pushes, a)[i].seqNo == SeqsFor(pushes, a)[i]
  {
    if pushes != [] {
      RecordsForSeqs(pushes[..|pushes| - 1], a);
    }
  }

  /** A tick pushes the records of a mailbox in seq order. */
  lemma TickIncreases(marks: Watermarks, visits: seq<Visit>, a: AgentId)
    ensures Increasing(RecordsFor(TickPushes(marks, visits), a))
  {
    TickRises(marks, visits, a);
    RecordsForSeqs(TickPushes(marks, visits), a);
    hide TickPushes, MarksAfter, SeqsFor, RecordsFor;
  }

  // ---- Where the pusher stands ----

  /** The newest record of the mailbox has this seq; 0 if there is none. */
  ghost predicate NewestIs(hist: History, a: AgentId, start: int) {
    (forall n :: n in hist && n.0 == a ==> n.1 <= start) && (start == 0 || (a, start) in hist)
  }

  /** What the pusher has dealt with: everything up to its mark, and everything from before the seeding. */
  function Dealt(mark: int, start: int): int {
    if mark > start then mark else start
  }

  /** The reader that has been given what was pushed of the mailbox. */
  function ReaderOf(x: Watcher, a: AgentId, start: int): C.Reader {
    C.Reader(x.s, Dealt(MarkOf(x.marks, a), start), RecordsFor(x.out, a))
  }

  /** No live record above the mark is from before the seeding. */
  ghost predicate FreshAhead(s: State, a: AgentId, mark: int, start: int) {
    forall r :: r in RecordsOf(s.disk.logs, a) && r.seqNo > mark ==> r.seqNo > start
  }

  ghost predicate PushInv(x: Watcher, a: AgentId, start: int) {
    && C.ReadInv(ReaderOf(x, a, start), a, "", start)
    && FreshAhead(x.s, a, MarkOf(x.marks, a), start) && (start == 0 || (a, start) in x.s.hist)
  }

  // ---- Ticks ----

  lemma NowFacts(s: State, a: AgentId)
    requires Inv(s)
    ensures Readable(FileOf(s.disk.logs, a)) && RecordsOf(s.disk.logs, a) == RecordsIn(FileOf(s.disk.logs, a))
    ensures Increasing(RecordsOf(s.disk.logs, a))
    ensures forall r :: r in RecordsOf(s.disk.logs, a) ==> r.to == a
  {
    InvParts(s);
    C.LogIsIncreasing(s, a);
    FileFacts(s);
    hide Inv, FilesOk, HistOk, SendsOk, LiveOk, RowsOk, ReceiptsOk, PcOk, Readable, RecordsIn, FileOf, Increasing;
    forall r | r in RecordsOf(s.disk.logs, a) ensures r.to == a {
      StoredFacts(s, a, r);
    }
  }

  /** A visit of the mailbox pushes exactly what is live above the mark. */
  lemma VisitPushes(x: Watcher, a: AgentId, visits: seq<Visit>, i: nat)
    requires Inv(x.s) && ReadsNow(x, a, visits) && i < |visits| && visits[i].agent == a
    ensures var rs, m := RecordsOf(x.s.disk.logs, a), MarkOf(x.marks, a);
            && (forall r :: r in RecordsFor(TickPushes(x.marks, visits), a) <==> r in rs && m < r.seqNo)
            && MarkOf(MarksAfter(x.marks, visits), a)
               == if rs != [] && rs[|rs| - 1].seqNo > m then rs[|rs| - 1].seqNo else m
  {
    NowFacts(x.s, a);
    var rs := RecordsOf(x.s.disk.logs, a);
    assert Found(visits[i]) == rs;
    hide Inv, RecordsOf, FileOf, TickPushes, MarksAfter, Found, Increasing, RecordsFor, MarkOf;
    forall r ensures r in RecordsFor(TickPushes(x.marks, visits), a) <==> r in rs && MarkOf(x.marks, a) < r.seqNo {
      TickIsComplete(x.marks, visits, i, r);
      RecordsForMember(TickPushes(x.marks, visits), a, r);
    }
    var any: Record := *;
    TickIsComplete(x.marks, visits, i, any);
  }

  lemma NotVisited(x: Watcher, a: AgentId, visits: seq<Visit>)
    requires forall i :: 0 <= i < |visits| ==> visits[i].agent != a
    ensures RecordsFor(TickPushes(x.marks, visits), a) == [] && MarkOf(MarksAfter(x.marks, visits), a) == MarkOf(x.marks, a)
  {
    UnreadKeepsMark(x.marks, visits, a);
    hide TickPushes, MarksAfter, RecordsFor, MarkOf;
    NoRecordsFor(TickPushes(x.marks, visits), a);
  }

  lemma {:induction false} NoRecordsFor(pushes: seq<Push>, a: AgentId)
    requires forall p :: p in pushes ==> p.mailbox != a
    ensures RecordsFor(pushes, a) == []
  {
    if pushes != [] {
      assert pushes[|pushes| - 1] in pushes;
      NoRecordsFor(pushes[..|pushes| - 1], a);
    }
  }

  /** What the tick pushes of the mailbox is exactly what was sent from where the pusher stood to where it
      stands now. */
  lemma PushedIsWhatWasSent(x: Watcher, a: AgentId, start: int, page: seq<Record>, m': int)
    requires PushInv(x, a, start) && Increasing(page)
    requires var rs, m := RecordsOf(x.s.disk.logs, a), MarkOf(x.marks, a);
             && (forall r :: r in page <==> r in rs && m < r.seqNo)
             && m' == if rs != [] && rs[|rs| - 1].seqNo > m then rs[|rs| - 1].seqNo else m
    ensures var m := MarkOf(x.marks, a);
            && C.Given(page, x.s.hist, a, "", Dealt(m, start), Dealt(m', start)) && Dealt(m, start) <= Dealt(m', start)
            && (Dealt(m', start) == start || (a, Dealt(m', start)) in x.s.hist)
            && C.AheadIsLive(x.s, a, Dealt(m', start)) && FreshAhead(x.s, a, m', start)
            && forall n :: n in x.s.hist && n.0 == a ==> n.1 <= Dealt(m', start)
  {
    var rs, m := RecordsOf(x.s.disk.logs, a), MarkOf(x.marks, a);
    var c := Dealt(m, start);
    hide C.Given, C.AheadIsLive, RecordsOf, Increasing, Inv, MarkOf, Dealt;
    NowFacts(x.s, a);
    LastIsTop(rs);
    forall r ensures r in rs && r.seqNo > c <==> C.SentAhead(x.s, a, c, r) {
      C.LiveIsSent(x.s, a, c, r);
    }
    NoneAhead(x.s, a, c);
    PageIsSent(x.s, a, rs, page, m, m', start);
    C.FurtherIsLive(x.s, a, c, Dealt(m', start));
  }

  /** The same on plain lists: rs is the log, the page is what of it lies above the mark. */
  lemma PageIsSent(s: State, a: AgentId, rs: seq<Record>, page: seq<Record>, m: int, m': int, start: int)
    requires Increasing(page) && (forall r :: r in page <==> r in rs && m < r.seqNo)
    requires forall r :: r in rs ==> r.seqNo <= rs[|rs| - 1].seqNo
    requires m' == if rs != [] && rs[|rs| - 1].seqNo > m then rs[|rs| - 1].seqNo else m
    requires forall r :: r in rs && r.seqNo > Dealt(m, start) <==> C.SentAhead(s, a, Dealt(m, start), r)
    requires forall r :: r in rs && r.seqNo > m ==> r.seqNo > start
    requires forall n :: n in s.hist && n.0 == a && n.1 > Dealt(m, start) ==>
               s.hist[n].rec in rs && s.hist[n].rec.seqNo == n.1
    requires Dealt(m, start) == start || (a, Dealt(m, start)) in s.hist
    ensures C.Given(page, s.hist, a, "", Dealt(m, start), Dealt(m', start)) && Dealt(m, start) <= Dealt(m', start)
    ensures Dealt(m', start) == start || (a, Dealt(m', start)) in s.hist
    ensures forall r :: r in rs && r.seqNo > m' ==> r.seqNo > start
    ensures forall n :: n in s.hist && n.0 == a ==> n.1 <= Dealt(m', start)
  {
    hide Increasing;
    var c, c' := Dealt(m, start), Dealt(m', start);
    forall r ensures r in page <==> C.SentIn(s.hist, a, "", c, c', r) {
      if r in page {
        assert r in rs && r.seqNo > c && C.SentAhead(s, a, c, r) && r.seqNo <= m';
      }
      if C.SentIn(s.hist, a, "", c, c', r) {
        assert C.SentAhead(s, a, c, r);
      }
    }
    if m' > m {
      var last := rs[|rs| - 1];
      assert last in rs && C.SentAhead(s, a, c, last);
    }
  }

  lemma LastIsTop(rs: seq<Record>)
    requires Increasing(rs)
    ensures forall r :: r in rs ==> r.seqNo <= rs[|rs| - 1].seqNo
  {
  }

  lemma NoneAhead(s: State, a: AgentId, c: int)
    requires Inv(s) && C.AheadIsLive(s, a, c)
    ensures forall n :: n in s.hist && n.0 == a && n.1 > c ==>
              s.hist[n].rec in RecordsOf(s.disk.logs, a) && s.hist[n].rec.seqNo == n.1
  {
    InvParts(s);
    I.HistoryIsTitled(s);
    hide Inv, FilesOk, HistOk, SendsOk, LiveOk, RowsOk, ReceiptsOk, PcOk, RecordsOf;
    forall n | n in s.hist && n.0 == a && n.1 > c
      ensures s.hist[n].rec in RecordsOf(s.disk.logs, a) && s.hist[n].rec.seqNo == n.1
    {
      assert IsLive(s, n);
    }
  }

  lemma TickKeeps(x: Watcher, a: AgentId, start: int, visits: seq<Visit>)
    requires PushInv(x, a, start) && ReadsNow(x, a, visits)
    ensures var y := Watcher(x.s, MarksAfter(x.marks, visits), x.out + TickPushes(x.marks, visits));
            && PushInv(y, a, start)
            && ((exists i :: 0 <= i < |visits| && visits[i].agent == a) ==>
                  forall n :: n in x.s.hist && n.0 == a ==> n.1 <= Dealt(MarkOf(y.marks, a), start))
  {
    var page := RecordsFor(TickPushes(x.marks, visits), a);
    var m, m' := MarkOf(x.marks, a), MarkOf(MarksAfter(x.marks, visits), a);
    RecordsForConcat(x.out, TickPushes(x.marks, visits), a);
    TickIncreases(x.marks, visits, a);
    hide Inv, RecordsOf, TickPushes, MarksAfter, RecordsFor, MarkOf, C.Given, C.AheadIsLive, FreshAhead, Increasing, Dealt;
    if i :| 0 <= i < |visits| && visits[i].agent == a {
      VisitPushes(x, a, visits, i);
      PushedIsWhatWasSent(x, a, start, page, m');
      C.GivenMore(RecordsFor(x.out, a), page, x.s.hist, a, "", start, Dealt(m, start), Dealt(m', start));
    } else {
      NotVisited(x, a, visits);
      assert RecordsFor(x.out, a) + [] == RecordsFor(x.out, a);
    }
  }

  // ---- The bus moves ----

  /** What is live after a step was live before it, unless it is new. */
  lemma LiveBefore(s: State, st: Step, n: Name)
    requires Inv(s) && Enabled(s, st) && n in s.hist && IsLive(Apply(s, st), n)
    ensures IsLive(s, n)
  {
    hide Inv, In, DoAppend, SendingAt, CanRewrite, DoRewrite, CanBeginSend, CanArchive, CanTruncate, CanWriteCounter,
      CanRebuild, CanLosePower, DoLosePower;
    if st.AppendRecord? {
      LiveBeforeAppend(s, n);
    } else if st.RewriteLog? {
      C.SameHist(s, st);
      I.RewriteShrinks(s);
    } else {
      hide Enabled, Apply;
      C.SameHist(s, st);
      C.SameLogs(s, st);
      SameIn(s.disk.logs, Apply(s, st).disk.logs, s.hist);
    }
  }

  lemma LiveBeforeAppend(s: State, n: Name)
    requires Inv(s) && SendingAt(s, false, true, false) && n in s.hist && IsLive(DoAppend(s), n)
    ensures IsLive(s, n)
  {
    I.AppendPlace(s);
    hide Inv, In, DoAppend, SendingAt, PendingRecord, SendsOk, StoredKey;
    I.AppendNames(s);
  }

  /** New records are from after the seeding. */
  lemma FreshStays(s: State, st: Step, a: AgentId, mark: int, start: int)
    requires Inv(s) && Enabled(s, st) && FreshAhead(s, a, mark, start) && (start == 0 || (a, start) in s.hist)
    ensures FreshAhead(Apply(s, st), a, mark, start)
  {
    var t := Apply(s, st);
    StepKeeps(s, st);
    C.BusGrows(s, st, a);
    hide Inv, Enabled, Apply, RecordsOf, C.Grows;
    forall r | r in RecordsOf(t.disk.logs, a) && r.seqNo > mark ensures r.seqNo > start {
      LiveFacts(t, a, r);
      if (a, r.seqNo) in s.hist {
        LiveBefore(s, st, (a, r.seqNo));
        OldIsFresh(s, t, a, mark, start, r);
      } else {
        NewIsFresh(s, t, a, start, r);
      }
    }
  }

  lemma LiveFacts(s: State, a: AgentId, r: Record)
    requires Inv(s) && r in RecordsOf(s.disk.logs, a)
    ensures IsLive(s, (a, r.seqNo)) && (a, r.seqNo) in s.hist && s.hist[(a, r.seqNo)].rec == r && r.seqNo >= 1
  {
    InvParts(s);
    hide Inv, FilesOk, SendsOk, LiveOk, RowsOk, ReceiptsOk, PcOk, RecordsOf, Kept, SeqOf;
    assert Named(s.disk.logs, s.hist) && NamesOk(s.hist, s.disk.seqs);
  }

  lemma OldIsFresh(s: State, t: State, a: AgentId, mark: int, start: int, r: Record)
    requires IsLive(s, (a, r.seqNo)) && FreshAhead(s, a, mark, start) && C.Grows(s, t, a) && r.seqNo > mark
    requires (a, r.seqNo) in t.hist && t.hist[(a, r.seqNo)].rec == r
    ensures r.seqNo > start
  {
    hide RecordsOf;
  }

  lemma NewIsFresh(s: State, t: State, a: AgentId, start: int, r: Record)
    requires C.Grows(s, t, a) && (start == 0 || (a, start) in s.hist)
    requires (a, r.seqNo) in t.hist && (a, r.seqNo) !in s.hist && r.seqNo >= 1
    ensures r.seqNo > start
  {
  }

  lemma ConsumedFurther(s: State, a: AgentId, mark: int, start: int)
    requires Inv(s) && CanRewrite(s) && C.Consumed(s, a, mark)
    ensures C.Consumed(s, a, Dealt(mark, start))
  {
    hide Inv, CanRewrite, RecordsIn, FileOf;
  }

  lemma BusKeeps(x: Watcher, a: AgentId, start: int, st: Step)
    requires PushInv(x, a, start) && CanMove(x, a, Bus(st))
    ensures PushInv(x.(s := Apply(x.s, st)), a, start)
  {
    var m := MarkOf(x.marks, a);
    assert CanRewrite(x.s) <== st.RewriteLog? by { hide CanRewrite; }
    if st.RewriteLog? {
      ConsumedFurther(x.s, a, m, start);
    }
    var reader := ReaderOf(x, a, start);
    assert C.CanMove(reader, a, C.Bus(st)) by { hide Enabled, CanRewrite, Inv; }
    hide Inv, Enabled, Apply, C.Consumed, C.CanMove, C.DoMove, FreshAhead, C.AheadIsLive, C.Given, MarkOf, Dealt, RecordsFor;
    C.BusKeeps(reader, a, "", start, st);
    C.BusMove(reader, a, "", st);
    FreshStays(x.s, st, a, m, start);
    C.BusGrows(x.s, st, a);
  }

  // ---- Whole runs ----

  lemma MoveKeeps(x: Watcher, a: AgentId, start: int, move: Move)
    requires PushInv(x, a, start) && CanMove(x, a, move)
    ensures PushInv(DoMove(x, a, move), a, start)
  {
    hide PushInv, TickPushes, MarksAfter, Enabled, Apply, ReadsNow, C.Consumed;
    match move
    case Bus(st) => BusKeeps(x, a, start, st);
    case Tick(visits) => TickKeeps(x, a, start, visits);
  }

  lemma {:induction false} MovesKeep(x: Watcher, a: AgentId, start: int, moves: seq<Move>)
    requires PushInv(x, a, start) && LegalMoves(x, a, moves)
    ensures PushInv(RunMoves(x, a, moves), a, start)
    decreases moves
  {
    hide PushInv, CanMove, DoMove;
    if moves != [] {
      MoveKeeps(x, a, start, moves[0]);
      MovesKeep(DoMove(x, a, moves[0]), a, start, moves[1..]);
    }
  }

  /** The marks as SeedWatermarks leaves them: no live record of the mailbox is above its mark, which is
      one of theirs or 0. */
  ghost predicate Seeded(s: State, a: AgentId, mark: int) {
    if RecordsOf(s.disk.logs, a) == [] then mark == 0
    else mark == RecordsOf(s.disk.logs, a)[|RecordsOf(s.disk.logs, a)| - 1].seqNo
  }

  /** SeedWatermarks on fresh marks does that. */
  lemma SeedingSeeds(s: State, a: AgentId, marks: Watermarks)
    requires Inv(s)
    requires MarkOf(marks, a) == if HasLast(s.disk.logs, a) then LastSeqIn(s.disk.logs[a]) else 0
    ensures Seeded(s, a, MarkOf(marks, a))
  {
    NowFacts(s, a);
    hide Inv, ParseAll, MarkOf, Increasing;
    NothingInNothing();
  }

  lemma NothingInNothing()
    ensures RecordsIn("") == []
  {
  }

  lemma SeedStarts(s: State, a: AgentId, marks: Watermarks, start: int)
    requires Inv(s) && Seeded(s, a, MarkOf(marks, a)) && NewestIs(s.hist, a, start)
    ensures PushInv(Watcher(s, marks, []), a, start)
  {
    hide Inv, RecordsOf, MarkOf, Seeded, NewestIs, C.Given, C.AheadIsLive;
    SeedIsBelow(s, a, MarkOf(marks, a), start);
    NothingAhead(s, a, start);
    assert Dealt(MarkOf(marks, a), start) == start && RecordsFor([], a) == [];
  }

  lemma NothingAhead(s: State, a: AgentId, start: int)
    requires NewestIs(s.hist, a, start)
    ensures C.AheadIsLive(s, a, start) && C.Given([], s.hist, a, "", start, start) && (start == 0 || (a, start) in s.hist)
  {
    hide In;
  }

  lemma SeedIsBelow(s: State, a: AgentId, m: int, start: int)
    requires Inv(s) && Seeded(s, a, m) && NewestIs(s.hist, a, start)
    ensures m <= start && forall r :: r in RecordsOf(s.disk.logs, a) ==> r.seqNo <= m
  {
    hide Inv, RecordsOf, In, FileOf, RecordsIn, Readable, Increasing;
    var rs := RecordsOf(s.disk.logs, a);
    NowFacts(s, a);
    LastIsTop(rs);
    StartIsNatural(s, a, start);
    if rs != [] {
      assert rs[|rs| - 1] in rs;
      LiveFacts(s, a, rs[|rs| - 1]);
    }
  }

  lemma StartIsNatural(s: State, a: AgentId, start: int)
    requires Inv(s) && NewestIs(s.hist, a, start)
    ensures start >= 0
  {
    InvParts(s);
    assert NamesOk(s.hist, s.disk.seqs);
    hide Inv, HistOk, FilesOk, SendsOk, LiveOk, RowsOk, ReceiptsOk, PcOk, SeqOf;
  }

  /** From the seeding on, however completed ticks are interleaved with the bus and compactions up to the
      mark: what was pushed of the mailbox is, in order and each exactly once, what was sent to it after the
      seeding with a seq up to the mark. */
  lemma PushesDrainTheRun(s: State, a: AgentId, marks: Watermarks, start: int, moves: seq<Move>)
    requires Inv(s) && Seeded(s, a, MarkOf(marks, a)) && NewestIs(s.hist, a, start)
    requires LegalMoves(Watcher(s, marks, []), a, moves)
    ensures var x := RunMoves(Watcher(s, marks, []), a, moves);
            C.Given(RecordsFor(x.out, a), x.s.hist, a, "", start, Dealt(MarkOf(x.marks, a), start))
  {
    hide Inv, Seeded, NewestIs, LegalMoves, RunMoves, MarkOf, RecordsFor, C.Given, C.AheadIsLive, FreshAhead;
    SeedStarts(s, a, marks, start);
    MovesKeep(Watcher(s, marks, []), a, start, moves);
  }

  /** And right after a tick that visited the mailbox, everything sent to it since the seeding. */
  lemma TickCatchesUp(s: State, a: AgentId, marks: Watermarks, start: int, moves: seq<Move>, visits: seq<Visit>,
                      i: nat, n: Name)
    requires Inv(s) && Seeded(s, a, MarkOf(marks, a)) && NewestIs(s.hist, a, start)
    requires LegalMoves(Watcher(s, marks, []), a, moves)
    requires var x := RunMoves(Watcher(s, marks, []), a, moves);
             && ReadsNow(x, a, visits) && i < |visits| && visits[i].agent == a
             && n in x.s.hist && n.0 == a && n.1 > start
    ensures var x := RunMoves(Watcher(s, marks, []), a, moves);
            x.s.hist[n].rec in RecordsFor(x.out + TickPushes(x.marks, visits), a)
  {
    hide Inv, Seeded, NewestIs, LegalMoves, RunMoves, MarkOf, RecordsFor, FreshAhead, TickPushes, MarksAfter, ReadsNow;
    SeedStarts(s, a, marks, start);
    MovesKeep(Watcher(s, marks, []), a, start, moves);
    var x := RunMoves(Watcher(s, marks, []), a, moves);
    TickKeeps(x, a, start, visits);
    I.HistoryIsTitled(x.s);
    var r := x.s.hist[n].rec;
    assert C.SentIn(x.s.hist, a, "", start, n.1, r);
  }
}
