/** Cursor reading beside running sends: a reader that pages through its mailbox from the last returned
    seq, while other processes send, die, recover and compact no further than its cursor. */
module CursorRuns {
  import opened Codec
  import opened Storage
  import opened Compaction
  import opened Reading
  import opened Protocol
  import opened Invariant
  import opened Preservation
  import opened KeyedSends
  import opened IndexCoverage

  /** The reader's own state is its cursor; out is what it has been given so far. */
  datatype Reader = Reader(s: State, cursor: int, out: seq<Record>)

  datatype Move = Bus(st: Step) | Fetch(limit: nat)

  /** A rewrite of the reader's log removes only what is at or below its cursor. */
  ghost predicate Consumed(s: State, a: AgentId, cursor: int)
    requires CanRewrite(s)
  {
    s.lock.pc.agent == a ==>
      forall r :: r in RecordsIn(FileOf(s.disk.logs, a)[..s.lock.pc.boundary]) ==> r.seqNo <= cursor
  }

  ghost predicate CanMove(x: Reader, a: AgentId, move: Move) {
    match move
    case Bus(st) => Enabled(x.s, st) && (st.RewriteLog? ==> Consumed(x.s, a, x.cursor))
    case Fetch(limit) => limit > 0
  }

  function PageOf(x: Reader, a: AgentId, kind: string, limit: nat): seq<Record> {
    Page(RecordsOf(x.s.disk.logs, a), x.cursor, kind, limit)
  }

  ghost function DoMove(x: Reader, a: AgentId, kind: string, move: Move): Reader
    requires CanMove(x, a, move)
  {
    match move
    case Bus(st) => x.(s := Apply(x.s, st))
    case Fetch(limit) =>
      var page := PageOf(x, a, kind, limit);
      if page == [] then x else Reader(x.s, page[|page| - 1].seqNo, x.out + page)
  }

  ghost predicate LegalMoves(x: Reader, a: AgentId, kind: string, moves: seq<Move>)
    decreases moves
  {
    moves == [] || (CanMove(x, a, moves[0]) && LegalMoves(DoMove(x, a, kind, moves[0]), a, kind, moves[1..]))
  }

  ghost function RunMoves(x: Reader, a: AgentId, kind: string, moves: seq<Move>): Reader
    requires LegalMoves(x, a, kind, moves)
    decreases moves
  {
    if moves == [] then x else RunMoves(DoMove(x, a, kind, moves[0]), a, kind, moves[1..])
  }

  // ---- What the reader has seen ----

  /** The record was sent to the mailbox with a seq in the range and is of the wanted kind. */
  ghost predicate SentIn(hist: History, a: AgentId, kind: string, low: int, high: int, r: Record) {
    && (a, r.seqNo) in hist && hist[(a, r.seqNo)].rec == r && low < r.seqNo <= high && (kind == "" || r.kind == kind)
  }

  /** Exactly the matching records sent in the range, in order. */
  ghost predicate Given(out: seq<Record>, hist: History, a: AgentId, kind: string, low: int, high: int) {
    Increasing(out) && forall r :: r in out <==> SentIn(hist, a, kind, low, high, r)
  }

  /** Nothing above the cursor has left the log. */
  ghost predicate AheadIsLive(s: State, a: AgentId, cursor: int) {
    forall n :: n in s.hist && n.0 == a && n.1 > cursor ==> IsLive(s, n)
  }

  /** The reader has been given exactly the matching records from its start to its cursor, in order. */
  ghost predicate ReadInv(x: Reader, a: AgentId, kind: string, start: int) {
    && Inv(x.s) && AheadIsLive(x.s, a, x.cursor)
    && start <= x.cursor && (x.cursor == start || (a, x.cursor) in x.s.hist)
    && Given(x.out, x.s.hist, a, kind, start, x.cursor)
  }

  // ---- Reading a page ----

  lemma LogIsIncreasing(s: State, a: AgentId)
    requires Inv(s)
    ensures Increasing(RecordsOf(s.disk.logs, a))
  {
    InvParts(s);
    hide Inv, RecordsOf, IdsBounded, IdsShared, KeysShared;
    assert Ascending(RecordsOf(s.disk.logs, a));
  }

  /** A non-empty page is the matches up to its last seq. */
  lemma PageIsMatches(rs: seq<Record>, cursor: int, kind: string, limit: nat)
    requires Increasing(rs) && limit > 0 && Page(rs, cursor, kind, limit) != []
    ensures var page := Page(rs, cursor, kind, limit);
            var last := page[|page| - 1];
            && Increasing(page) && cursor < last.seqNo && last in rs
            && forall r :: r in page <==> r in rs && Wanted(r, cursor, kind) && r.seqNo <= last.seqNo
  {
    var ms := Matching(rs, cursor, kind);
    var page := Page(rs, cursor, kind, limit);
    MatchingFacts(rs, cursor, kind);
    hide Matching;
    PrefixOfIncreasing(ms, |page|);
    assert page == ms[..|page|] && page[|page| - 1] == ms[|page| - 1] && ms[|page| - 1] in ms;
    hide Increasing;
  }

  /** A non-empty page is exactly what was sent between the cursor and the page's last seq. */
  lemma PageIsWhatWasSent(x: Reader, a: AgentId, kind: string, limit: nat)
    requires Inv(x.s) && AheadIsLive(x.s, a, x.cursor) && limit > 0 && PageOf(x, a, kind, limit) != []
    ensures var page := PageOf(x, a, kind, limit);
            var last := page[|page| - 1].seqNo;
            x.cursor < last && (a, last) in x.s.hist && Given(page, x.s.hist, a, kind, x.cursor, last)
  {
    var rs := RecordsOf(x.s.disk.logs, a);
    LogIsIncreasing(x.s, a);
    PageIsMatches(rs, x.cursor, kind, limit);
    forall r ensures r in rs && r.seqNo > x.cursor <==> SentAhead(x.s, a, x.cursor, r) {
      LiveIsSent(x.s, a, x.cursor, r);
    }
    hide Page, RecordsOf, AheadIsLive, Inv, Increasing;
  }

  /** Any record sent to the mailbox above the cursor. */
  ghost predicate SentAhead(s: State, a: AgentId, cursor: int, r: Record) {
    (a, r.seqNo) in s.hist && s.hist[(a, r.seqNo)].rec == r && r.seqNo > cursor
  }

  lemma LiveIsSent(s: State, a: AgentId, cursor: int, r: Record)
    requires Inv(s) && AheadIsLive(s, a, cursor)
    ensures r in RecordsOf(s.disk.logs, a) && r.seqNo > cursor <==> SentAhead(s, a, cursor, r)
  {
    InvParts(s);
    assert Named(s.disk.logs, s.hist);
    hide Inv, HistOk, RecordsOf;
    if SentAhead(s, a, cursor, r) {
      assert IsLive(s, (a, r.seqNo));
    }
  }

  lemma PrefixOfIncreasing(ms: seq<Record>, k: nat)
    requires Increasing(ms) && 0 < k <= |ms|
    ensures Increasing(ms[..k])
    ensures forall r :: r in ms[..k] <==> r in ms && r.seqNo <= ms[k - 1].seqNo
  {
    forall r ensures r in ms[..k] <==> r in ms && r.seqNo <= ms[k - 1].seqNo {
      if r in ms {
        var i :| 0 <= i < |ms| && ms[i] == r;
        if i < k {
          assert ms[..k][i] == r;
        } else {
          assert ms[k - 1].seqNo < ms[i].seqNo;
          assert r.seqNo > ms[k - 1].seqNo;
        }
      }
      if r in ms[..k] {
        var i :| 0 <= i < k && ms[..k][i] == r;
        assert ms[i] == r;
      }
    }
  }

  lemma JoinIncreasing(xs: seq<Record>, ys: seq<Record>, mid: int)
    requires Increasing(xs) && Increasing(ys)
    requires (forall r :: r in xs ==> r.seqNo <= mid) && (forall r :: r in ys ==> mid < r.seqNo)
    ensures Increasing(xs + ys)
  {
    var zs := xs + ys;
    forall i, j | 0 <= i < j < |zs| ensures zs[i].seqNo < zs[j].seqNo {
      assert i < |xs| ==> zs[i] in xs;
      assert j >= |xs| ==> zs[j] in ys;
    }
  }

  lemma GivenMore(xs: seq<Record>, ys: seq<Record>, hist: History, a: AgentId, kind: string, low: int, mid: int, high: int)
    requires Given(xs, hist, a, kind, low, mid) && Given(ys, hist, a, kind, mid, high) && low <= mid <= high
    ensures Given(xs + ys, hist, a, kind, low, high)
  {
    assert forall r :: r in xs + ys <==> r in xs || r in ys;
    assert forall r :: SentIn(hist, a, kind, low, high, r) <==>
        SentIn(hist, a, kind, low, mid, r) || SentIn(hist, a, kind, mid, high, r);
    JoinIncreasing(xs, ys, mid);
  }

  lemma FetchKeeps(x: Reader, a: AgentId, kind: string, start: int, limit: nat)
    requires ReadInv(x, a, kind, start) && limit > 0
    ensures ReadInv(DoMove(x, a, kind, Fetch(limit)), a, kind, start)
  {
    hide Inv, PageOf, Given, AheadIsLive;
    var page := PageOf(x, a, kind, limit);
    if page != [] {
      PageIsWhatWasSent(x, a, kind, limit);
      var last := page[|page| - 1].seqNo;
      GivenMore(x.out, page, x.s.hist, a, kind, start, x.cursor, last);
      FurtherIsLive(x.s, a, x.cursor, last);
    }
  }

  lemma FurtherIsLive(s: State, a: AgentId, cursor: int, last: int)
    requires AheadIsLive(s, a, cursor) && cursor <= last
    ensures AheadIsLive(s, a, last)
  {
    hide In;
  }

  // ---- The bus moves ----

  /** A step only adds history above everything in its mailbox. */
  ghost predicate Grows(s: State, t: State, a: AgentId) {
    && (forall n :: n in s.hist ==> n in t.hist && t.hist[n] == s.hist[n])
    && (forall n :: n in t.hist && n !in s.hist ==>
          t.hist[n].rec.seqNo == n.1 && forall m :: m in s.hist && m.0 == n.0 ==> m.1 < n.1)
  }

  lemma BusGrows(s: State, st: Step, a: AgentId)
    requires Inv(s) && Enabled(s, st)
    ensures Grows(s, Apply(s, st), a)
  {
    hide Inv, Grows, SendingAt, DoAppend, CanBeginSend, CanArchive, CanRewrite, CanTruncate, CanWriteCounter, CanRebuild,
      CanLosePower;
    if st.AppendRecord? {
      AppendGrows(s, a);
    } else {
      SameHist(s, st);
      hide Enabled, Apply;
      GrowsByNone(s, Apply(s, st), a);
    }
  }

  lemma GrowsByNone(s: State, t: State, a: AgentId)
    requires t.hist == s.hist
    ensures Grows(s, t, a)
  {
  }

  lemma SameHist(s: State, st: Step)
    requires Enabled(s, st) && !st.AppendRecord?
    ensures Apply(s, st).hist == s.hist
  {
    hide SendingAt, CanBeginSend, CanArchive, CanWriteCounter, CanRebuild, Lists, CompactPoint, MaxIdOver, InsertSeq,
      Entries, InsertOrReplace, Encoding, FileOf;
  }

  lemma GrowsByOne(s: State, t: State, name: Name, e: Entry, a: AgentId)
    requires t.hist == s.hist[name := e] && name !in s.hist && e.rec.seqNo == name.1
    requires forall m :: m in s.hist && m.0 == name.0 ==> m.1 < name.1
    ensures Grows(s, t, a)
  {
  }

  lemma AppendGrows(s: State, a: AgentId)
    requires Inv(s) && SendingAt(s, false, true, false)
    ensures Grows(s, DoAppend(s), a)
  {
    AppendPlace(s);
    NextIsNewest(s);
    assert PendingRecord(s.lock.pc).seqNo == s.lock.pc.stage.seqNo;
    hide Inv, SendingAt, DoAppend, PendingRecord, Grows;
    GrowsByOne(s, DoAppend(s), (s.lock.pc.todo[0], PendingRecord(s.lock.pc).seqNo),
               Entry(s.sends, PendingRecord(s.lock.pc), s.lock.pc.job.key), a);
  }

  lemma NextIsNewest(s: State)
    requires Inv(s) && SendingAt(s, false, true, false)
    ensures forall m :: m in s.hist && m.0 == s.lock.pc.todo[0] ==> m.1 < s.lock.pc.stage.seqNo
  {
    InvParts(s);
    hide Inv, FilesOk, HistOk, SendsOk, LiveOk, RowsOk, ReceiptsOk;
    assert SendPcOk(s, s.lock.pc);
    hide PcOk, RecipientsOk, JobOk, DeliveredOk, Own, Writes, SeqOf;
  }

  lemma BusLive(s: State, st: Step, a: AgentId, cursor: int)
    requires Inv(s) && Enabled(s, st) && AheadIsLive(s, a, cursor) && (st.RewriteLog? ==> Consumed(s, a, cursor))
    ensures AheadIsLive(Apply(s, st), a, cursor)
  {
    if st.AppendRecord? {
      AppendNames(s);
      AppendPlace(s);
      hide Inv, In, DoAppend, SendingAt, PendingRecord;
    } else if st.RewriteLog? {
      RewriteAhead(s, a, cursor);
    } else {
      SameHist(s, st);
      SameLogs(s, st);
      SameIn(s.disk.logs, Apply(s, st).disk.logs, s.hist);
      hide Inv, Enabled, Apply, In, SameFiles;
    }
  }

  lemma SameLogs(s: State, st: Step)
    requires Inv(s) && Enabled(s, st) && !st.AppendRecord? && !st.RewriteLog?
    ensures SameFiles(s.disk.logs, Apply(s, st).disk.logs)
  {
    hide Inv, Enabled, Apply, SameFiles;
    if st.TruncateTail? || st.PowerLoss? {
      TornLogs(s, st);
    } else {
      QuietLogs(s, st);
      EqualFiles(s.disk.logs, Apply(s, st).disk.logs);
    }
  }

  lemma RewriteAhead(s: State, a: AgentId, cursor: int)
    requires Inv(s) && CanRewrite(s) && AheadIsLive(s, a, cursor) && Consumed(s, a, cursor)
    ensures AheadIsLive(DoRewrite(s), a, cursor)
  {
    var t := DoRewrite(s);
    RewriteChange(s);
    InvParts(s);
    var b, moved := s.lock.pc.agent, RecordsIn(FileOf(s.disk.logs, s.lock.pc.agent)[..s.lock.pc.boundary]);
    assert Shrunk(s.disk.logs, t.disk.logs, s.disk.archives, b, moved);
    forall n | n in t.hist && n.0 == a && n.1 > cursor ensures IsLive(t, n) {
      assert IsLive(s, n);
      StaysLive(s, t, b, moved, n);
    }
  }

  lemma StaysLive(s: State, t: State, b: AgentId, moved: seq<Record>, n: Name)
    requires HistOk(s) && Shrunk(s.disk.logs, t.disk.logs, s.disk.archives, b, moved) && t.hist == s.hist && IsLive(s, n)
    requires n.0 == b ==> s.hist[n].rec !in moved
    ensures IsLive(t, n)
  {
    hide RecordsOf, Named, Kept, NamesOk;
    if n.0 == b {
      assert s.hist[n].rec in moved + RecordsOf(t.disk.logs, b);
    }
  }

  lemma BusMove(x: Reader, a: AgentId, kind: string, st: Step)
    requires CanMove(x, a, Bus(st))
    ensures Enabled(x.s, st) && (st.RewriteLog? ==> Consumed(x.s, a, x.cursor))
    ensures DoMove(x, a, kind, Bus(st)) == x.(s := Apply(x.s, st))
  {
    hide Enabled, Apply, Consumed;
  }

  lemma BusKeeps(x: Reader, a: AgentId, kind: string, start: int, st: Step)
    requires ReadInv(x, a, kind, start) && CanMove(x, a, Bus(st))
    ensures ReadInv(DoMove(x, a, kind, Bus(st)), a, kind, start)
  {
    var t := Apply(x.s, st);
    hide Inv, Enabled, Apply, AheadIsLive, Given, Consumed, Grows, CanMove, DoMove;
    BusMove(x, a, kind, st);
    StepKeeps(x.s, st);
    BusGrows(x.s, st, a);
    BusLive(x.s, st, a, x.cursor);
    CursorStays(x.s, t, a, start, x.cursor);
    GivenStays(x.out, x.s, t, a, kind, start, x.cursor);
  }

  lemma GivenStays(out: seq<Record>, s: State, t: State, a: AgentId, kind: string, start: int, cursor: int)
    requires Given(out, s.hist, a, kind, start, cursor)
    requires Grows(s, t, a) && (cursor == start || (a, cursor) in s.hist)
    ensures Given(out, t.hist, a, kind, start, cursor)
  {
    hide Grows, SentIn, Increasing;
    forall r ensures SentIn(t.hist, a, kind, start, cursor, r) <==> SentIn(s.hist, a, kind, start, cursor, r) {
      NothingNewBehind(s, t, a, kind, start, cursor, r);
    }
  }

  lemma CursorStays(s: State, t: State, a: AgentId, start: int, cursor: int)
    requires Grows(s, t, a) && (cursor == start || (a, cursor) in s.hist)
    ensures cursor == start || (a, cursor) in t.hist
  {
  }

  lemma NothingNewBehind(s: State, t: State, a: AgentId, kind: string, start: int, cursor: int, r: Record)
    requires Grows(s, t, a) && (cursor == start || (a, cursor) in s.hist)
    ensures SentIn(t.hist, a, kind, start, cursor, r) <==> SentIn(s.hist, a, kind, start, cursor, r)
  {
  }

  // ---- Whole runs ----

  lemma {:induction false} MovesKeep(x: Reader, a: AgentId, kind: string, start: int, moves: seq<Move>)
    requires ReadInv(x, a, kind, start) && LegalMoves(x, a, kind, moves)
    ensures ReadInv(RunMoves(x, a, kind, moves), a, kind, start)
    decreases moves
  {
    hide ReadInv, CanMove, DoMove;
    if moves != [] {
      MoveKeeps(x, a, kind, start, moves[0]);
      MovesKeep(DoMove(x, a, kind, moves[0]), a, kind, start, moves[1..]);
    }
  }

  lemma MoveKeeps(x: Reader, a: AgentId, kind: string, start: int, move: Move)
    requires ReadInv(x, a, kind, start) && CanMove(x, a, move)
    ensures ReadInv(DoMove(x, a, kind, move), a, kind, start)
  {
    match move
    case Bus(st) => BusKeeps(x, a, kind, start, st);
    case Fetch(limit) => FetchKeeps(x, a, kind, start, limit);
  }

  /** From any state in which nothing above the start has been compacted away, however the reads, with
      whatever limits, are interleaved with the bus: the reader is given, in order and each exactly once,
      the matching records sent from its start to its cursor; and once a read comes back empty, all that
      were sent after its start. */
  lemma ReadsDrainTheRun(s: State, a: AgentId, kind: string, start: int, moves: seq<Move>)
    requires Inv(s) && AheadIsLive(s, a, start) && LegalMoves(Reader(s, start, []), a, kind, moves)
    ensures var x := RunMoves(Reader(s, start, []), a, kind, moves);
            && Given(x.out, x.s.hist, a, kind, start, x.cursor)
            && forall limit: nat :: limit > 0 && PageOf(x, a, kind, limit) == [] ==>
                 forall n :: n in x.s.hist && n.0 == a && n.1 > start && (kind == "" || x.s.hist[n].rec.kind == kind) ==>
                   x.s.hist[n].rec in x.out
  {
    var x0 := Reader(s, start, []);
    assert ReadInv(x0, a, kind, start) by { hide Inv, AheadIsLive; }
    hide LegalMoves, RunMoves;
    MovesKeep(x0, a, kind, start, moves);
    var x := RunMoves(x0, a, kind, moves);
    forall limit: nat | limit > 0 && PageOf(x, a, kind, limit) == []
      ensures forall n :: n in x.s.hist && n.0 == a && n.1 > start && (kind == "" || x.s.hist[n].rec.kind == kind) ==>
                x.s.hist[n].rec in x.out
    {
      EmptyPage(x, a, kind, start, limit);
    }
    hide Inv, AheadIsLive, PageOf, SentIn, Given;
  }

  lemma EmptyPage(x: Reader, a: AgentId, kind: string, start: int, limit: nat)
    requires ReadInv(x, a, kind, start) && limit > 0 && PageOf(x, a, kind, limit) == []
    ensures forall n :: n in x.s.hist && n.0 == a && n.1 > start && (kind == "" || x.s.hist[n].rec.kind == kind) ==>
              x.s.hist[n].rec in x.out
  {
    var rs := RecordsOf(x.s.disk.logs, a);
    LogIsIncreasing(x.s, a);
    MatchingFacts(rs, x.cursor, kind);
    InvParts(x.s);
    assert Titled(x.s.hist) by { HistoryIsTitled(x.s); }
    hide Matching, RecordsOf, Inv, HistOk, FilesOk, SendsOk, LiveOk, RowsOk, ReceiptsOk, PcOk;
    forall n | n in x.s.hist && n.0 == a && n.1 > start && (kind == "" || x.s.hist[n].rec.kind == kind)
      ensures x.s.hist[n].rec in x.out
    {
      var r := x.s.hist[n].rec;
      assert n == (a, r.seqNo);
      assert n.1 > x.cursor ==> IsLive(x.s, n);
      assert Matching(rs, x.cursor, kind) == [];
      assert r in rs && Wanted(r, x.cursor, kind) ==> r in Matching(rs, x.cursor, kind);
      assert SentIn(x.s.hist, a, kind, start, x.cursor, r);
    }
  }
}
