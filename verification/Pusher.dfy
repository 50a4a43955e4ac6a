/** The channel pusher (internal/bus/push.go): a watermark per mailbox, ticks that push every newer
    record whose recipient is known, and a sink that may die. Other processes send, compact and
    recover between and during ticks: each mailbox is read whenever the tick reaches it, so a tick
    is given what each of its visits finds: the bytes and the agents known at that moment. */
module Pusher {
  import opened Text
  import opened Codec
  import opened Storage
  import opened Compaction

  /** One mailbox as a tick finds it; data is None when the file cannot be read. */
  datatype Visit = Visit(agent: AgentId, data: Option<Bytes>, seen: set<AgentId>)

  datatype Push = Push(mailbox: AgentId, rec: Record)

  type Watermarks = map<AgentId, int>

  function MarkOf(marks: Watermarks, a: AgentId): int {
    if a in marks then marks[a] else 0
  }

  /** The records a tick can take from a visit; a missing or malformed log yields none. */
  function Found(visit: Visit): seq<Record> {
    match visit.data
    case None => []
    case Some(data) => if Readable(data) then RecordsIn(data) else []
  }

  // ---- Scanning one mailbox ----

  /** The mark after passing over the records from the given mark on. */
  function Passed(rs: seq<Record>, mark: int): (m: int)
    ensures mark <= m
  {
    if rs == [] then mark
    else
      var before := Passed(rs[..|rs| - 1], mark);
      if rs[|rs| - 1].seqNo > before then rs[|rs| - 1].seqNo else before
  }

  /** The records pushed while passing over rs: each one above everything before it whose
      recipient is known. */
  function Pushed(a: AgentId, rs: seq<Record>, mark: int, seen: set<AgentId>): seq<Push> {
    if rs == [] then []
    else
      var init, last := rs[..|rs| - 1], rs[|rs| - 1];
      Pushed(a, init, mark, seen)
      + if last.seqNo > Passed(init, mark) && last.to in seen then [Push(a, last)] else []
  }

  // ---- Strictly increasing, whatever the logs hold ----

  /** The seqs pushed for a mailbox, in order. */
  function SeqsFor(pushes: seq<Push>, a: AgentId): seq<int> {
    if pushes == [] then []
    else
      SeqsFor(pushes[..|pushes| - 1], a)
      + if pushes[|pushes| - 1].mailbox == a then [pushes[|pushes| - 1].rec.seqNo] else []
  }

  lemma {:induction false} SeqsForConcat(xs: seq<Push>, ys: seq<Push>, a: AgentId)
    ensures SeqsFor(xs + ys, a) == SeqsFor(xs, a) + SeqsFor(ys, a)
  {
    if ys == [] {
      assert xs + ys == xs;
    } else {
      assert (xs + ys)[..|xs + ys| - 1] == xs + ys[..|ys| - 1];
      SeqsForConcat(xs, ys[..|ys| - 1], a);
    }
  }

  ghost predicate Rising(qs: seq<int>, low: int, high: int) {
    && (forall i, j :: 0 <= i < j < |qs| ==> qs[i] < qs[j])
    && (forall i :: 0 <= i < |qs| ==> low < qs[i] <= high)
    && low <= high
  }

  /** The seqs pushed for the mailbox strictly increase from above low. */
  ghost predicate RisesAbove(pushes: seq<Push>, a: AgentId, low: int) {
    exists top :: Rising(SeqsFor(pushes, a), low, top)
  }

  lemma RisingConcat(xs: seq<int>, ys: seq<int>, low: int, mid: int, high: int)
    requires Rising(xs, low, mid) && Rising(ys, mid, high)
    ensures Rising(xs + ys, low, high)
  {
  }

  lemma RisingWider(qs: seq<int>, low: int, mid: int, high: int)
    requires Rising(qs, low, mid) && mid <= high
    ensures Rising(qs, low, high)
  {
  }

  lemma OneMorePush(before: seq<Push>, a: AgentId, r: Record, mark: int, mid: int, b: AgentId)
    requires Rising(SeqsFor(before, a), mark, mid) && r.seqNo > mid
    ensures Rising(SeqsFor(before + [Push(a, r)], a), mark, r.seqNo)
    ensures b != a ==> SeqsFor(before + [Push(a, r)], b) == SeqsFor(before, b)
  {
    hide SeqsFor;
    SeqsForConcat(before, [Push(a, r)], a);
    SeqsForConcat(before, [Push(a, r)], b);
    SeqsForOne(Push(a, r), a);
    SeqsForOne(Push(a, r), b);
    RisingConcat(SeqsFor(before, a), [r.seqNo], mark, mid, r.seqNo);
  }

  lemma {:induction false} PushedRises(a: AgentId, rs: seq<Record>, mark: int, seen: set<AgentId>, b: AgentId)
    ensures Rising(SeqsFor(Pushed(a, rs, mark, seen), a), mark, Passed(rs, mark))
    ensures b != a ==> SeqsFor(Pushed(a, rs, mark, seen), b) == []
  {
    if rs != [] {
      var init, last := rs[..|rs| - 1], rs[|rs| - 1];
      PushedRises(a, init, mark, seen, b);
      hide SeqsFor, Rising;
      var before, mid := Pushed(a, init, mark, seen), Passed(init, mark);
      if last.seqNo > mid && last.to in seen {
        OneMorePush(before, a, last, mark, mid, b);
      } else {
        assert Pushed(a, rs, mark, seen) == before;
        RisingWider(SeqsFor(before, a), mark, mid, Passed(rs, mark));
      }
    }
  }

  lemma SeqsForOne(p: Push, a: AgentId)
    ensures SeqsFor([p], a) == if p.mailbox == a then [p.rec.seqNo] else []
  {
    assert [p][..0] == [];
  }

  // ---- Complete on logs in seq order ----

  /** On a log in seq order the mark ends at the larger of its old value and the last seq. */
  lemma {:induction false} PassedIsLast(rs: seq<Record>, mark: int)
    requires Increasing(rs)
    ensures Passed(rs, mark) == if rs != [] && rs[|rs| - 1].seqNo > mark then rs[|rs| - 1].seqNo else mark
  {
    if rs != [] {
      PassedIsLast(rs[..|rs| - 1], mark);
    }
  }

  /** ... and exactly the records above the old mark whose recipient is known are pushed. */
  lemma {:induction false} PushedIsComplete(a: AgentId, rs: seq<Record>, mark: int, seen: set<AgentId>, r: Record)
    requires Increasing(rs)
    ensures Push(a, r) in Pushed(a, rs, mark, seen) <==> r in rs && mark < r.seqNo && r.to in seen
  {
    if rs != [] {
      var init, last := rs[..|rs| - 1], rs[|rs| - 1];
      assert rs == init + [last];
      PushedIsComplete(a, init, mark, seen, r);
      PassedIsLast(init, mark);
      hide Pushed, Passed;
      assert init != [] ==> init[|init| - 1].seqNo < last.seqNo;
    }
  }

  /** From a log that is missing or malformed nothing is taken and its mark stays. */
  lemma NothingFound(visit: Visit, mark: int)
    requires visit.data == None || !Readable(visit.data.value)
    ensures Pushed(visit.agent, Found(visit), mark, visit.seen) == [] && Passed(Found(visit), mark) == mark
  {
    hide Readable;
  }

  // ---- Whole ticks ----

  /** The marks after a tick that was not cut short. */
  function MarksAfter(marks: Watermarks, visits: seq<Visit>): Watermarks {
    if visits == [] then marks
    else
      var before := MarksAfter(marks, visits[..|visits| - 1]);
      var visit := visits[|visits| - 1];
      var m := Passed(Found(visit), MarkOf(before, visit.agent));
      if m > MarkOf(before, visit.agent) then before[visit.agent := m] else before
  }

  /** What a tick that was not cut short pushes. */
  function TickPushes(marks: Watermarks, visits: seq<Visit>): seq<Push> {
    if visits == [] then []
    else
      var init, visit := visits[..|visits| - 1], visits[|visits| - 1];
      TickPushes(marks, init)
      + Pushed(visit.agent, Found(visit), MarkOf(MarksAfter(marks, init), visit.agent), visit.seen)
  }

  lemma {:induction false} TickRises(marks: Watermarks, visits: seq<Visit>, a: AgentId)
    ensures Rising(SeqsFor(TickPushes(marks, visits), a), MarkOf(marks, a), MarkOf(MarksAfter(marks, visits), a))
  {
    hide Pushed, Passed, Found;
    if visits != [] {
      var init, visit := visits[..|visits| - 1], visits[|visits| - 1];
      TickRises(marks, init, a);
      var mid := MarksAfter(marks, init);
      var more := Pushed(visit.agent, Found(visit), MarkOf(mid, visit.agent), visit.seen);
      PushedRises(visit.agent, Found(visit), MarkOf(mid, visit.agent), visit.seen, a);
      SeqsForConcat(TickPushes(marks, init), more, a);
      RisingConcat(SeqsFor(TickPushes(marks, init), a), SeqsFor(more, a), MarkOf(marks, a), MarkOf(mid, a),
                   MarkOf(MarksAfter(marks, visits), a));
    }
  }

  /** A mailbox the tick does not visit keeps its mark. */
  lemma {:induction false} UnreadKeepsMark(marks: Watermarks, visits: seq<Visit>, a: AgentId)
    requires forall i :: 0 <= i < |visits| ==> visits[i].agent != a
    ensures MarkOf(MarksAfter(marks, visits), a) == MarkOf(marks, a)
    ensures forall p :: p in TickPushes(marks, visits) ==> p.mailbox != a
  {
    hide Passed, Found;
    if visits != [] {
      var init, visit := visits[..|visits| - 1], visits[|visits| - 1];
      UnreadKeepsMark(marks, init, a);
      PushedFrom(visit.agent, Found(visit), MarkOf(MarksAfter(marks, init), visit.agent), visit.seen);
    }
  }

  lemma {:induction false} PushedFrom(a: AgentId, rs: seq<Record>, mark: int, seen: set<AgentId>)
    ensures forall p :: p in Pushed(a, rs, mark, seen) ==> p.mailbox == a
  {
    hide Passed;
    if rs != [] {
      PushedFrom(a, rs[..|rs| - 1], mark, seen);
    }
  }

  ghost predicate OncePerMailbox(visits: seq<Visit>) {
    forall i, j :: 0 <= i < j < |visits| ==> visits[i].agent != visits[j].agent
  }

  /** A tick that is not cut short pushes, of every log in seq order that it visits, exactly the
      records above the old mark whose recipient is known, and leaves the mark at the larger of its
      old value and the log's last seq. */
  lemma {:induction false} TickIsComplete(marks: Watermarks, visits: seq<Visit>, i: nat, r: Record)
    requires i < |visits| && OncePerMailbox(visits) && Increasing(Found(visits[i]))
    ensures var a, rs := visits[i].agent, Found(visits[i]);
            && (Push(a, r) in TickPushes(marks, visits) <==> r in rs && MarkOf(marks, a) < r.seqNo && r.to in visits[i].seen)
            && MarkOf(MarksAfter(marks, visits), a)
               == if rs != [] && rs[|rs| - 1].seqNo > MarkOf(marks, a) then rs[|rs| - 1].seqNo else MarkOf(marks, a)
  {
    hide Pushed, Passed, Found, Increasing;
    var init, visit := visits[..|visits| - 1], visits[|visits| - 1];
    var mid := MarksAfter(marks, init);
    var more := Pushed(visit.agent, Found(visit), MarkOf(mid, visit.agent), visit.seen);
    assert TickPushes(marks, visits) == TickPushes(marks, init) + more;
    if i < |init| {
      assert init[i] == visits[i];
      TickIsComplete(marks, init, i, r);
      PushedFrom(visit.agent, Found(visit), MarkOf(mid, visit.agent), visit.seen);
    } else {
      UnreadKeepsMark(marks, init, visit.agent);
      PushedIsComplete(visit.agent, Found(visit), MarkOf(mid, visit.agent), visit.seen, r);
      PassedIsLast(Found(visit), MarkOf(mid, visit.agent));
    }
  }

  // ---- Over later ticks ----

  /** The marks after some ticks that were not cut short. */
  function MarksAfterAll(marks: Watermarks, ticks: seq<seq<Visit>>): Watermarks {
    if ticks == [] then marks else MarksAfter(MarksAfterAll(marks, ticks[..|ticks| - 1]), ticks[|ticks| - 1])
  }

  function AllPushes(marks: Watermarks, ticks: seq<seq<Visit>>): seq<Push> {
    if ticks == [] then []
    else
      AllPushes(marks, ticks[..|ticks| - 1])
      + TickPushes(MarksAfterAll(marks, ticks[..|ticks| - 1]), ticks[|ticks| - 1])
  }

  lemma {:induction false} AllRises(marks: Watermarks, ticks: seq<seq<Visit>>, a: AgentId)
    ensures Rising(SeqsFor(AllPushes(marks, ticks), a), MarkOf(marks, a), MarkOf(MarksAfterAll(marks, ticks), a))
  {
    hide TickPushes, MarksAfter;
    if ticks != [] {
      var init, last := ticks[..|ticks| - 1], ticks[|ticks| - 1];
      AllRises(marks, init, a);
      hide SeqsFor, Rising;
      TickContinues(AllPushes(marks, init), MarksAfterAll(marks, init), last, a, MarkOf(marks, a));
    }
  }

  lemma {:induction false} SeqIsListed(pushes: seq<Push>, p: Push)
    requires p in pushes
    ensures p.rec.seqNo in SeqsFor(pushes, p.mailbox)
  {
    var init, last := pushes[..|pushes| - 1], pushes[|pushes| - 1];
    assert pushes == init + [last];
    if p in init {
      SeqIsListed(init, p);
    }
  }

  /** A record whose recipient a tick does not know is passed for good: neither that tick nor any later one
      pushes it, whatever is known by then. */
  lemma PassedForGood(marks: Watermarks, visits: seq<Visit>, i: nat, r: Record, later: seq<seq<Visit>>)
    requires i < |visits| && OncePerMailbox(visits) && Increasing(Found(visits[i]))
    requires r in Found(visits[i]) && r.to !in visits[i].seen
    ensures Push(visits[i].agent, r) !in TickPushes(marks, visits) + AllPushes(MarksAfter(marks, visits), later)
  {
    var a, next := visits[i].agent, MarksAfter(marks, visits);
    TickIsComplete(marks, visits, i, r);
    LastIsLargest(Found(visits[i]), r);
    AllRises(next, later, a);
    hide TickPushes, AllPushes, MarksAfter, MarksAfterAll, SeqsFor, Found, Increasing;
    if Push(a, r) in AllPushes(next, later) {
      SeqIsListed(AllPushes(next, later), Push(a, r));
    }
  }

  lemma LastIsLargest(rs: seq<Record>, r: Record)
    requires Increasing(rs) && r in rs
    ensures r.seqNo <= rs[|rs| - 1].seqNo
  {
  }

  // ---- The pusher ----

  /** The connection to the client: it accepts some number of pushes and is dead afterwards. */
  class Sink {
    var pushed: seq<Push>
    var room: nat

    constructor (room: nat)
      ensures this.room == room && pushed == []
    {
      this.room := room;
      pushed := [];
    }

    method PushChannel(p: Push) returns (ok: bool)
      modifies this
      ensures ok <==> old(room) > 0
      ensures pushed == if ok then old(pushed) + [p] else old(pushed)
      ensures ok ==> room == old(room) - 1
    {
      ok := room > 0;
      if ok {
        room := room - 1;
        pushed := pushed + [p];
      }
    }
  }

  /** What is pushed is a prefix of what a live sink would have received. */
  ghost predicate Prefix(xs: seq<Push>, ys: seq<Push>) {
    |xs| <= |ys| && xs == ys[..|xs|]
  }

  lemma {:induction false} PrefixRises(xs: seq<Push>, ys: seq<Push>, a: AgentId, low: int, high: int)
    requires Prefix(xs, ys) && Rising(SeqsFor(ys, a), low, high)
    ensures Rising(SeqsFor(xs, a), low, high)
  {
    assert ys == xs + ys[|xs|..];
    SeqsForConcat(xs, ys[|xs|..], a);
    var p, q := SeqsFor(xs, a), SeqsFor(ys, a);
    assert forall i :: 0 <= i < |p| ==> p[i] == q[i];
  }

  function LastSeqIn(data: Bytes): int
    requires RecordsIn(data) != []
  {
    RecordsIn(data)[|RecordsIn(data)| - 1].seqNo
  }

  ghost predicate HasLast(logs: Files, a: AgentId) {
    a in logs && Readable(logs[a]) && RecordsIn(logs[a]) != []
  }

  class ChannelPusher {
    const sink: Sink
    var lastSeq: Watermarks

    constructor (sink: Sink)
      ensures this.sink == sink && lastSeq == map[] && forall a :: Watermark(a) == 0
    {
      this.sink := sink;
      lastSeq := map[];
    }

    function Watermark(a: AgentId): int
      reads this
    {
      MarkOf(lastSeq, a)
    }

    method SetWatermark(a: AgentId, seqNo: int)
      modifies this
      ensures lastSeq == if seqNo > old(Watermark(a)) then old(lastSeq)[a := seqNo] else old(lastSeq)
    {
      if seqNo > Watermark(a) {
        lastSeq := lastSeq[a := seqNo];
      }
    }

    /** MaxSeq of one log: its last record's seq, if it parses and has one. */
    method MaxSeq(data: Bytes) returns (q: Option<int>)
      ensures q == if Readable(data) && RecordsIn(data) != [] then Some(LastSeqIn(data)) else None
    {
      hide ParseAll;
      var parsed := ParseRecords(data);
      if parsed.Fails? || |parsed.records| == 0 {
        return None;
      }
      q := Some(parsed.records[|parsed.records| - 1].seqNo);
    }

    /** Pre-existing mail is never pushed: the mark of every log that has a record becomes its last
        seq; the other marks stay. */
    method SeedWatermarks(logs: Files)
      modifies this
      ensures forall a :: Watermark(a) == if HasLast(logs, a) then LastSeqIn(logs[a]) else old(Watermark(a))
    {
      hide ParseAll, RecordsIn, Readable;
      var left := logs.Keys;
      while left != {}
        invariant left <= logs.Keys
        invariant forall a :: Watermark(a) == if HasLast(logs, a) && a !in left then LastSeqIn(logs[a]) else old(Watermark(a))
        decreases left
      {
        var a :| a in left;
        var q := MaxSeq(logs[a]);
        if q.Some? {
          lastSeq := lastSeq[a := q.value];
        }
        left := left - {a};
      }
    }

    /** The records of one mailbox; ok is false when the sink died on the way. */
    method PushMailbox(a: AgentId, rs: seq<Record>, seen: set<AgentId>) returns (ok: bool)
      modifies this, sink
      ensures ok ==>
                && sink.pushed == old(sink.pushed) + Pushed(a, rs, old(Watermark(a)), seen)
                && var m := Passed(rs, old(Watermark(a)));
                   lastSeq == if m > old(Watermark(a)) then old(lastSeq)[a := m] else old(lastSeq)
      ensures !ok ==>
                && lastSeq == old(lastSeq)
                && exists sent :: Prefix(sent, Pushed(a, rs, old(Watermark(a)), seen)) && sink.pushed == old(sink.pushed) + sent
    {
      var mark := Watermark(a);
      var highest := mark;
      ghost var before := sink.pushed;
      for i := 0 to |rs|
        invariant lastSeq == old(lastSeq)
        invariant highest == Passed(rs[..i], mark)
        invariant sink.pushed == before + Pushed(a, rs[..i], mark, seen)
      {
        assert rs[..i + 1][..i] == rs[..i];
        PushedGrows(a, rs, mark, seen, i + 1);
        var rec := rs[i];
        if rec.seqNo <= highest {
          continue;
        }
        if rec.to !in seen {
          highest := rec.seqNo;
          continue;
        }
        var sent := sink.PushChannel(Push(a, rec));
        if !sent {
          PushedGrows(a, rs, mark, seen, i);
          return false;
        }
        highest := rec.seqNo;
      }
      assert rs[..|rs|] == rs;
      if highest > Watermark(a) {
        SetWatermark(a, highest);
      }
      ok := true;
    }

    method Scan(visit: Visit) returns (rs: seq<Record>)
      ensures rs == Found(visit)
    {
      hide ParseAll;
      if visit.data.None? {
        return [];
      }
      var parsed := ParseRecords(visit.data.value);
      if parsed.Fails? {
        return [];
      }
      rs := parsed.records;
    }

    /** One tick over the mailboxes. False means that the sink is dead; a mailbox whose push failed
        keeps its mark. */
    method Tick(visits: seq<Visit>) returns (alive: bool)
      modifies this, sink
      ensures alive ==>
                lastSeq == MarksAfter(old(lastSeq), visits) && sink.pushed == old(sink.pushed) + TickPushes(old(lastSeq), visits)
      ensures !alive ==>
                exists sent :: Prefix(sent, TickPushes(old(lastSeq), visits)) && sink.pushed == old(sink.pushed) + sent
    {
      hide Pushed, Passed, Prefix, Found, TickPushes, MarksAfter;
      ghost var marks, before := lastSeq, sink.pushed;
      NoVisits(marks);
      assert visits[..0] == [] && before + [] == before;
      for i := 0 to |visits|
        invariant lastSeq == MarksAfter(marks, visits[..i])
        invariant sink.pushed == before + TickPushes(marks, visits[..i])
      {
        TickStep(marks, visits, i);
        MarksStep(marks, visits, i);
        var visit := visits[i];
        var rs := Scan(visit);
        ghost var more := Pushed(visit.agent, rs, MarkOf(lastSeq, visit.agent), visit.seen);
        ghost var sofar := sink.pushed;
        var ok := PushMailbox(visit.agent, rs, visit.seen);
        if !ok {
          ghost var part :| Prefix(part, more) && sink.pushed == sofar + part;
          CutShort(marks, visits, i, part, more);
          assert sink.pushed == before + (TickPushes(marks, visits[..i]) + part);
          return false;
        }
      }
      assert visits[..|visits|] == visits;
      alive := true;
    }

    /** The loop's ticks, ended by the first dead one: the seqs pushed for a mailbox strictly increase from
        above its mark, whatever the logs look like at any visit. */
    method RunTicks(ticks: seq<seq<Visit>>) returns (alive: bool)
      modifies this, sink
      ensures old(sink.pushed) <= sink.pushed
      ensures forall a :: RisesAbove(sink.pushed[|old(sink.pushed)|..], a, MarkOf(old(lastSeq), a))
      ensures alive ==>
                forall a :: Rising(SeqsFor(sink.pushed[|old(sink.pushed)|..], a), MarkOf(old(lastSeq), a), MarkOf(lastSeq, a))
    {
      hide TickPushes, MarksAfter, Rising, SeqsFor, Prefix;
      ghost var seed, base, mine := lastSeq, sink.pushed, [];
      NothingPushed(seed);
      for i := 0 to |ticks|
        invariant sink.pushed == base + mine
        invariant forall a :: Rising(SeqsFor(mine, a), MarkOf(seed, a), MarkOf(lastSeq, a))
      {
        ghost var marks := lastSeq;
        alive := Tick(ticks[i]);
        if !alive {
          ghost var sent :| Prefix(sent, TickPushes(marks, ticks[i])) && sink.pushed == base + mine + sent;
          assert sink.pushed[|base|..] == mine + sent;
          forall a ensures RisesAbove(mine + sent, a, MarkOf(seed, a)) {
            PartRises(mine, marks, ticks[i], sent, a, MarkOf(seed, a));
          }
          return;
        }
        forall a ensures Rising(SeqsFor(mine + TickPushes(marks, ticks[i]), a), MarkOf(seed, a), MarkOf(lastSeq, a)) {
          TickContinues(mine, marks, ticks[i], a, MarkOf(seed, a));
        }
        assert base + mine + TickPushes(marks, ticks[i]) == base + (mine + TickPushes(marks, ticks[i]));
        mine := mine + TickPushes(marks, ticks[i]);
      }
      assert sink.pushed[|base|..] == mine;
      forall a ensures RisesAbove(mine, a, MarkOf(seed, a)) {
        assert Rising(SeqsFor(mine, a), MarkOf(seed, a), MarkOf(lastSeq, a));
      }
      alive := true;
    }

    /** The loop: the marks are seeded from the logs as they are, then it ticks until the sink is dead. Over
        the whole life of the process the seqs pushed for a mailbox strictly increase and are above the last
        seq its log had at the start, so no record is pushed twice and none from before. */
    method Loop(logs: Files, ticks: seq<seq<Visit>>) returns (alive: bool)
      modifies this, sink
      ensures old(sink.pushed) <= sink.pushed
      ensures forall a :: RisesAbove(sink.pushed[|old(sink.pushed)|..], a,
                                     if HasLast(logs, a) then LastSeqIn(logs[a]) else old(Watermark(a)))
    {
      SeedWatermarks(logs);
      ghost var seeded := lastSeq;
      alive := RunTicks(ticks);
      assert forall a :: MarkOf(seeded, a) == if HasLast(logs, a) then LastSeqIn(logs[a]) else old(Watermark(a));
    }
  }

  lemma {:induction false} PushedGrows(a: AgentId, rs: seq<Record>, mark: int, seen: set<AgentId>, k: nat)
    requires k <= |rs|
    ensures Prefix(Pushed(a, rs[..k], mark, seen), Pushed(a, rs, mark, seen))
    decreases |rs| - k
  {
    if k < |rs| {
      assert rs[..k + 1][..k] == rs[..k];
      PushedGrows(a, rs, mark, seen, k + 1);
      hide Passed;
    } else {
      assert rs[..k] == rs;
    }
  }

  lemma TickStep(marks: Watermarks, visits: seq<Visit>, k: nat)
    requires k < |visits|
    ensures TickPushes(marks, visits[..k + 1])
            == TickPushes(marks, visits[..k])
               + Pushed(visits[k].agent, Found(visits[k]), MarkOf(MarksAfter(marks, visits[..k]), visits[k].agent),
                        visits[k].seen)
  {
    hide Pushed, MarksAfter, Found;
    assert visits[..k + 1][..k] == visits[..k];
  }

  lemma NoVisits(marks: Watermarks)
    ensures MarksAfter(marks, []) == marks && TickPushes(marks, []) == []
  {
  }

  lemma MarksStep(marks: Watermarks, visits: seq<Visit>, k: nat)
    requires k < |visits|
    ensures var before := MarksAfter(marks, visits[..k]);
            var m := Passed(Found(visits[k]), MarkOf(before, visits[k].agent));
            MarksAfter(marks, visits[..k + 1])
            == if m > MarkOf(before, visits[k].agent) then before[visits[k].agent := m] else before
  {
    hide Passed, Found;
    assert visits[..k + 1][..k] == visits[..k];
  }

  lemma {:induction false} TickGrows(marks: Watermarks, visits: seq<Visit>, k: nat)
    requires k <= |visits|
    ensures Prefix(TickPushes(marks, visits[..k]), TickPushes(marks, visits))
    decreases |visits| - k
  {
    hide Pushed, MarksAfter, Found, TickPushes;
    if k < |visits| {
      TickStep(marks, visits, k);
      TickGrows(marks, visits, k + 1);
    } else {
      assert visits[..k] == visits;
    }
  }

  /** A tick cut short inside its i-th visit has pushed a prefix of what it would have pushed. */
  lemma CutShort(marks: Watermarks, visits: seq<Visit>, i: nat, part: seq<Push>, more: seq<Push>)
    requires i < |visits| && Prefix(part, more)
    requires more == Pushed(visits[i].agent, Found(visits[i]), MarkOf(MarksAfter(marks, visits[..i]), visits[i].agent),
                            visits[i].seen)
    ensures Prefix(TickPushes(marks, visits[..i]) + part, TickPushes(marks, visits))
  {
    hide Pushed, MarksAfter, Found, TickPushes;
    TickStep(marks, visits, i);
    TickGrows(marks, visits, i + 1);
  }

  lemma NothingPushed(seed: Watermarks)
    ensures forall a :: Rising(SeqsFor([], a), MarkOf(seed, a), MarkOf(seed, a))
  {
  }

  lemma TickContinues(before: seq<Push>, marks: Watermarks, visits: seq<Visit>, a: AgentId, low: int)
    requires Rising(SeqsFor(before, a), low, MarkOf(marks, a))
    ensures Rising(SeqsFor(before + TickPushes(marks, visits), a), low, MarkOf(MarksAfter(marks, visits), a))
  {
    hide TickPushes, MarksAfter, SeqsFor, Rising;
    TickRises(marks, visits, a);
    SeqsForConcat(before, TickPushes(marks, visits), a);
    RisingConcat(SeqsFor(before, a), SeqsFor(TickPushes(marks, visits), a), low, MarkOf(marks, a),
                 MarkOf(MarksAfter(marks, visits), a));
  }

  lemma PartRises(before: seq<Push>, marks: Watermarks, visits: seq<Visit>, sent: seq<Push>, a: AgentId, low: int)
    requires Rising(SeqsFor(before, a), low, MarkOf(marks, a)) && Prefix(sent, TickPushes(marks, visits))
    ensures Rising(SeqsFor(before + sent, a), low, MarkOf(MarksAfter(marks, visits), a))
  {
    hide TickPushes, MarksAfter, SeqsFor, Rising, Prefix;
    TickRises(marks, visits, a);
    PrefixRises(sent, TickPushes(marks, visits), a, MarkOf(marks, a), MarkOf(MarksAfter(marks, visits), a));
    SeqsForConcat(before, sent, a);
    RisingConcat(SeqsFor(before, a), SeqsFor(sent, a), low, MarkOf(marks, a), MarkOf(MarksAfter(marks, visits), a));
  }
}
