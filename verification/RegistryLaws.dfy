/** Replay of the registry log: what is appended is read back, and a log extended by an event folds
    to the old state with that event applied. */
module RegistryLaws {
  import opened Text
  import opened Codec
  import opened CodecLaws
  import opened RegistryLog

  // ---- Cutting the log into blocks ----

  /** The log is empty or ends with the blank line that closes its last block. */
  ghost predicate Closed(log: Bytes) {
    var bs := SplitBlocks(log);
    bs[|bs| - 1] == ""
  }

  lemma {:induction false} FindBlankAppend(a: Bytes, b: Bytes)
    requires FindBlank(a) < |a|
    ensures FindBlank(a + b) == FindBlank(a)
  {
    if !(a[0] == '\n' && a[1] == '\n') {
      FindBlankAppend(a[1..], b);
      assert (a + b)[1..] == a[1..] + b;
    }
  }

  /** Bytes appended to a closed log start a block of their own. */
  lemma {:induction false} SplitAppend(log: Bytes, more: Bytes)
    requires Closed(log)
    ensures SplitBlocks(log + more) == SplitBlocks(log)[..|SplitBlocks(log)| - 1] + SplitBlocks(more)
    decreases |log|
  {
    hide FindBlank;
    var i := FindBlank(log);
    if i == |log| {
      assert log == "" && log + more == more;
    } else {
      FindBlankAppend(log, more);
      var rest := log[i + 2..];
      assert SplitBlocks(log) == [log[..i]] + SplitBlocks(rest);
      SplitAppend(rest, more);
      assert (log + more)[..i] == log[..i] && (log + more)[i + 2..] == rest + more;
    }
  }

  /** A line is passed over unless the next byte makes its end a blank line. */
  lemma {:induction false} FindBlankLine(line: string, rest: Bytes)
    requires OneLine(line)
    ensures FindBlank(line + "\n" + rest)
            == if rest != "" && rest[0] == '\n' then |line| else |line| + 1 + FindBlank(rest)
  {
    var s := line + "\n" + rest;
    if line == "" {
      assert s[1..] == rest;
    } else {
      assert s[0] == line[0] && line[0] in line;
      assert s[1..] == line[1..] + "\n" + rest;
      FindBlankLine(line[1..], rest);
    }
  }

  ghost predicate TextLines(ls: seq<string>) {
    forall i :: 0 <= i < |ls| ==> OneLine(ls[i]) && ls[i] != ""
  }

  /** The first blank line after written lines is the one that closes them. */
  lemma {:induction false} FindBlankUnlines(ls: seq<string>, rest: Bytes)
    requires TextLines(ls) && ls != []
    ensures Unlines(ls) != "" && FindBlank(Unlines(ls) + "\n" + rest) == |Unlines(ls)| - 1
  {
    hide FindBlank;
    var tail := Unlines(ls[1..]) + "\n" + rest;
    assert Unlines(ls) + "\n" + rest == ls[0] + "\n" + tail;
    FindBlankLine(ls[0], tail);
    if ls[1..] == [] {
      assert Unlines(ls[1..]) == "";
    } else {
      FindBlankUnlines(ls[1..], rest);
      assert tail[0] == ls[1][0] && ls[1][0] in ls[1];
    }
  }

  // ---- One block ----

  /** Written lines without their last newline. */
  function Unclosed(ls: seq<string>): Bytes {
    if ls == [] then "" else Unlines(ls[..|ls| - 1]) + ls[|ls| - 1]
  }

  lemma UnlinesUnclosed(ls: seq<string>)
    requires ls != []
    ensures Unlines(ls) == Unclosed(ls) + "\n"
  {
    var init, last := ls[..|ls| - 1], ls[|ls| - 1];
    assert ls == init + [last];
    UnlinesConcat(init, [last]);
    assert [last][1..] == [];
  }

  lemma BlockIsOne(ls: seq<string>)
    requires TextLines(ls) && ls != []
    ensures SplitBlocks(Unlines(ls) + "\n") == [Unclosed(ls), ""]
  {
    hide Unlines, FindBlank;
    FindBlankUnlines(ls, "");
    UnlinesUnclosed(ls);
    var s := Unlines(ls) + "\n";
    var i := |Unclosed(ls)|;
    assert s + "" == s && s[..i] == Unclosed(ls) && s[i + 2..] == "";
    assert FindBlank("") == 0 by { EmptyHasNoBlank(); }
    assert SplitBlocks("") == [""];
  }

  lemma EmptyHasNoBlank()
    ensures FindBlank("") == 0
  {
  }

  lemma SplitOneLine(s: string)
    requires OneLine(s)
    ensures Split(s, '\n') == [s]
  {
    assert Find(s, '\n') == |s|;
  }

  lemma {:induction false} SplitClosed(s: string)
    ensures Split(s + "\n", '\n') == Split(s, '\n') + [""]
    decreases |s|
  {
    hide Split;
    var i := Find(s, '\n');
    if i == |s| {
      SplitOneLine(s);
      SplitLine(s, "");
      SplitNothing();
      assert s + "\n" + "" == s + "\n";
    } else {
      var line, rest := s[..i], s[i + 1..];
      SplitClosed(rest);
      SplitLine(line, rest);
      SplitLine(line, rest + "\n");
      assert s == line + "\n" + rest && s + "\n" == line + "\n" + (rest + "\n");
    }
  }

  lemma SplitUnclosed(ls: seq<string>)
    requires TextLines(ls) && ls != []
    ensures Split(Unclosed(ls), '\n') == ls
    ensures TrimNewlines(Unclosed(ls)) == Unclosed(ls) && Unclosed(ls) != ""
  {
    hide Unlines, Split;
    SplitUnlines(ls);
    UnlinesUnclosed(ls);
    var b := Unclosed(ls);
    SplitClosed(b);
    assert Split(b, '\n') == (Split(b, '\n') + [""])[..|Split(b, '\n')|];
    assert ls == (ls + [""])[..|ls|];
    var line := ls[|ls| - 1];
    assert b[|b| - 1] == line[|line| - 1] && line[|line| - 1] in line;
  }

  /** What the block of some lines is read as. */
  function EventIn(ls: seq<string>): Option<Event> {
    match FieldMap(ls, map[])
    case None => None
    case Some(f) => EventOf(f)
  }

  lemma BlockOfLines(ls: seq<string>)
    requires TextLines(ls) && ls != []
    ensures ParseBlock(Unclosed(ls)) == EventIn(ls)
  {
    SplitUnclosed(ls);
    hide Unclosed, Split, FieldMap, TrimNewlines, EventOf;
  }

  /** Lines closed by a blank line and appended to a closed log are read as one more block. */
  lemma LinesAppended(log: Bytes, ls: seq<string>)
    requires Closed(log) && TextLines(ls) && ls != []
    ensures Closed(log + (Unlines(ls) + "\n"))
    ensures ParseLog(log + (Unlines(ls) + "\n"))
            == ParseLog(log) + match EventIn(ls) case None => [] case Some(e) => [e]
  {
    hide SplitBlocks, ParseBlock, Unlines, Unclosed, ParseBlocks, EventIn, TextLines;
    BlockIsOne(ls);
    BlockOfLines(ls);
    var bs := SplitBlocks(log);
    var init := bs[..|bs| - 1];
    SplitAppend(log, Unlines(ls) + "\n");
    var b := Unclosed(ls);
    assert bs == init + [""];
    assert init + [b, ""] == (init + [b]) + [""];
    ParseBlocksSnoc(init, "");
    ParseBlocksSnoc(init + [b], "");
    ParseBlocksSnoc(init, b);
    EmptyBlock();
  }

  lemma EmptyBlock()
    ensures ParseBlock("") == None
  {
  }

  // ---- Its fields ----

  lemma {:induction false} AssignSnoc(ps: seq<(string, string)>, p: (string, string), acc: map<string, string>)
    ensures Assign(ps + [p], acc) == Assign(ps, acc)[p.0 := p.1]
  {
    if ps == [] {
      assert (ps + [p])[1..] == [];
    } else {
      assert (ps + [p])[1..] == ps[1..] + [p];
      AssignSnoc(ps[1..], p, acc[ps[0].0 := ps[0].1]);
    }
  }

  lemma SelectedStep(cs: seq<(string, string, bool)>, base: map<string, string>)
    requires cs != []
    ensures var init, last := cs[..|cs| - 1], cs[|cs| - 1];
            Assign(Select(cs), base)
            == if last.2 then Assign(Select(init), base)[last.0 := last.1] else Assign(Select(init), base)
  {
    hide Assign;
    var init, last := cs[..|cs| - 1], cs[|cs| - 1];
    AssignSnoc(Select(init), (last.0, last.1), base);
    assert !last.2 ==> Select(cs) == Select(init);
  }

  /** A selected line is read back under its key; for a line left out what was there before shows. */
  lemma {:induction false} SelectedFields(cs: seq<(string, string, bool)>, base: map<string, string>, k: string)
    requires forall i, j :: 0 <= i < j < |cs| ==> cs[i].0 != cs[j].0
    ensures var f := Assign(Select(cs), base);
            forall i :: 0 <= i < |cs| ==> Get(f, cs[i].0) == if cs[i].2 then cs[i].1 else Get(base, cs[i].0)
    ensures (forall i :: 0 <= i < |cs| ==> cs[i].0 != k) ==> Get(Assign(Select(cs), base), k) == Get(base, k)
  {
    SelectedAbsent(cs, base, k);
    if cs != [] {
      hide Assign, Select, Get;
      var init, last := cs[..|cs| - 1], cs[|cs| - 1];
      assert forall i :: 0 <= i < |init| ==> init[i] == cs[i];
      SelectedFields(init, base, k);
      SelectedAbsent(init, base, last.0);
      SelectedStep(cs, base);
      FieldsStep(cs, base, Assign(Select(init), base), Assign(Select(cs), base));
    }
  }

  lemma {:induction false} SelectedAbsent(cs: seq<(string, string, bool)>, base: map<string, string>, k: string)
    ensures (forall i :: 0 <= i < |cs| ==> cs[i].0 != k) ==> Get(Assign(Select(cs), base), k) == Get(base, k)
  {
    if cs == [] {
      NoFields(base);
    } else {
      hide Assign, Select;
      SelectedAbsent(cs[..|cs| - 1], base, k);
      SelectedStep(cs, base);
    }
  }

  /** One more line sets its own field and no other. */
  lemma FieldsStep(cs: seq<(string, string, bool)>, base: map<string, string>, g: map<string, string>, f: map<string, string>)
    requires cs != [] && forall i, j :: 0 <= i < j < |cs| ==> cs[i].0 != cs[j].0
    requires forall i :: 0 <= i < |cs| - 1 ==> Get(g, cs[i].0) == if cs[i].2 then cs[i].1 else Get(base, cs[i].0)
    requires var last := cs[|cs| - 1]; Get(g, last.0) == Get(base, last.0) && f == if last.2 then g[last.0 := last.1] else g
    ensures forall i :: 0 <= i < |cs| ==> Get(f, cs[i].0) == if cs[i].2 then cs[i].1 else Get(base, cs[i].0)
  {
  }

  lemma NoFields(base: map<string, string>)
    ensures Assign([], base) == base
  {
  }

  lemma {:induction false} SelectGood(cs: seq<(string, string, bool)>)
    requires forall i :: 0 <= i < |cs| && cs[i].2 ==>
               cs[i].0 != "" && ':' !in cs[i].0 && OneLine(cs[i].0) && OneLine(cs[i].1)
    ensures GoodPairs(Select(cs))
    ensures cs != [] && cs[0].2 ==> Select(cs) != []
  {
    if cs != [] {
      SelectGood(cs[..|cs| - 1]);
    }
  }

  lemma CandidatesAreGood(ev: Event)
    requires CleanEvent(ev)
    ensures GoodPairs(Select(Candidates(ev))) && Select(Candidates(ev)) != []
    ensures forall i, j :: 0 <= i < j < |Candidates(ev)| ==> Candidates(ev)[i].0 != Candidates(ev)[j].0
  {
    if ev.ts != "" {
      TimestampIsOneLine(ev.ts);
    }
    hide IsTimestamp, Select;
    var cs := Candidates(ev);
    forall i, j | 0 <= i < j < |cs| ensures cs[i].0 != cs[j].0 {
      var a, b := cs[i].0, cs[j].0;
      assert |a| == |b| ==> a[0] != b[0];
    }
    SelectGood(cs);
  }

  /** The lines of an event's block. */
  function EventLines(ev: Event): seq<string> {
    LinesOf(Select(Candidates(ev)))
  }

  lemma NextLine(cs: seq<(string, string, bool)>, k: nat, key: string)
    requires k < |cs| && cs[k].0 == key
    ensures LinesOf(Select(cs[..k + 1])) == LinesOf(Select(cs[..k])) + if cs[k].2 then [key + ": " + cs[k].1] else []
  {
    assert cs[..k + 1][..k] == cs[..k];
  }

  /** The block written out. */
  lemma BlockIs(ev: Event)
    ensures Block(ev)
            == Unlines(["event: " + ev.kind, "agent_id: " + ev.agentId]
                       + (if ev.kind == "register" then
                            ["role: " + ev.role, "description: " + ev.description, "working_dir: " + ev.workingDir]
                          else [])
                       + (if ev.kind == "register" && ev.model != "" then ["model: " + ev.model] else [])
                       + (if ev.kind == "status" then ["status: " + ev.status] else [])
                       + (if ev.ts != "" then ["ts: " + ev.ts] else []))
               + "\n"
  {
    var cs := Candidates(ev);
    assert cs[..8] == cs && LinesOf(Select(cs[..0])) == [];
    RenderUnlines(Select(cs));
    EventHead(ev);
    EventBody(ev);
    EventTail(ev);
    hide Select, LinesOf, Render, Unlines;
  }

  lemma EventHead(ev: Event)
    ensures LinesOf(Select(Candidates(ev)[..2])) == ["event: " + ev.kind, "agent_id: " + ev.agentId]
  {
    var cs := Candidates(ev);
    assert LinesOf(Select(cs[..0])) == [];
    hide Select, LinesOf;
    NextLine(cs, 0, "event");
    NextLine(cs, 1, "agent_id");
    assert "event" + ": " == "event: " && "agent_id" + ": " == "agent_id: ";
  }

  lemma EventBody(ev: Event)
    ensures LinesOf(Select(Candidates(ev)[..5]))
            == LinesOf(Select(Candidates(ev)[..2]))
               + if ev.kind == "register" then
                   ["role: " + ev.role, "description: " + ev.description, "working_dir: " + ev.workingDir]
                 else []
  {
    var cs := Candidates(ev);
    hide Select, LinesOf;
    NextLine(cs, 2, "role");
    NextLine(cs, 3, "description");
    NextLine(cs, 4, "working_dir");
    assert "role" + ": " == "role: " && "description" + ": " == "description: " && "working_dir" + ": " == "working_dir: ";
  }

  lemma EventTail(ev: Event)
    ensures LinesOf(Select(Candidates(ev)[..8]))
            == LinesOf(Select(Candidates(ev)[..5]))
               + (if ev.kind == "register" && ev.model != "" then ["model: " + ev.model] else [])
               + (if ev.kind == "status" then ["status: " + ev.status] else [])
               + (if ev.ts != "" then ["ts: " + ev.ts] else [])
  {
    var cs := Candidates(ev);
    hide Select, LinesOf;
    NextLine(cs, 5, "model");
    NextLine(cs, 6, "status");
    NextLine(cs, 7, "ts");
    assert "model" + ": " == "model: " && "status" + ": " == "status: " && "ts" + ": " == "ts: ";
  }

  lemma BlockIsLines(ev: Event)
    requires CleanEvent(ev)
    ensures Block(ev) == Unlines(EventLines(ev)) + "\n" && TextLines(EventLines(ev)) && EventLines(ev) != []
    ensures FieldMap(EventLines(ev), map[]) == Some(Assign(Select(Candidates(ev)), map[]))
  {
    CandidatesAreGood(ev);
    var ps := Select(Candidates(ev));
    hide Select, Candidates, CleanEvent;
    RenderUnlines(ps);
    PairLines(ps);
    FieldMapLines(ps, map[]);
  }

  lemma EventFields(ev: Event)
    requires CleanEvent(ev)
    ensures EventOf(Assign(Select(Candidates(ev)), map[])) == Some(Carried(ev))
  {
    hide Select, Get, Assign;
    CandidatesAreGood(ev);
    var cs := Candidates(ev);
    SelectedFields(cs, map[], "");
    hide IsTimestamp;
    assert forall k :: Get(map[], k) == "" by { NothingThere(); }
    assert cs[0].0 == "event" && cs[1].0 == "agent_id" && cs[2].0 == "role" && cs[3].0 == "description";
    assert cs[4].0 == "working_dir" && cs[5].0 == "model" && cs[6].0 == "status" && cs[7].0 == "ts";
  }

  lemma NothingThere()
    ensures forall k :: Get(map[], k) == ""
  {
  }

  // ---- Replay ----

  /** Appending the block of an event to a closed log appends that event, up to the fields its kind
      does not carry, and the log is closed again. */
  lemma AppendedIsReadBack(log: Bytes, ev: Event)
    requires Closed(log) && CleanEvent(ev)
    ensures Closed(log + Block(ev))
    ensures ParseLog(log + Block(ev)) == ParseLog(log) + [Carried(ev)]
  {
    hide Closed, ParseLog, EventOf, FieldMap, Assign, Unlines, Block, EventLines, CleanEvent, Select, TextLines, Carried;
    BlockIsLines(ev);
    EventFields(ev);
    LinesAppended(log, EventLines(ev));
  }

  function Written(evs: seq<Event>): Bytes {
    if evs == [] then "" else Written(evs[..|evs| - 1]) + Block(evs[|evs| - 1])
  }

  function CarriedAll(evs: seq<Event>): seq<Event> {
    seq(|evs|, i requires 0 <= i < |evs| => Carried(evs[i]))
  }

  lemma EmptyLog()
    ensures Closed("") && ParseLog("") == []
  {
  }

  /** The concatenation of the blocks of any clean events parses to those events. */
  lemma {:induction false} Replay(evs: seq<Event>)
    requires forall i :: 0 <= i < |evs| ==> CleanEvent(evs[i])
    ensures Closed(Written(evs)) && ParseLog(Written(evs)) == CarriedAll(evs)
  {
    hide Closed, ParseLog, Block, CleanEvent;
    if evs == [] {
      EmptyLog();
    } else {
      var init := evs[..|evs| - 1];
      Replay(init);
      AppendedIsReadBack(Written(init), evs[|evs| - 1]);
      assert CarriedAll(evs) == CarriedAll(init) + [Carried(evs[|evs| - 1])];
    }
  }

  /** The fold never looks at a field the event's kind does not carry. */
  lemma CarriedIsEnough(agents: Agents, ev: Event)
    ensures ApplyEvent(agents, Carried(ev)) == ApplyEvent(agents, ev)
  {
  }

  /** Appending an event to the log applies it to the registry. */
  lemma AppendApplies(log: Bytes, ev: Event)
    requires Closed(log) && CleanEvent(ev)
    ensures Closed(log + Block(ev)) && AgentsOf(log + Block(ev)) == ApplyEvent(AgentsOf(log), ev)
  {
    hide Closed, ParseLog, Block, CleanEvent, ApplyEvent, Carried;
    AppendedIsReadBack(log, ev);
    CarriedIsEnough(AgentsOf(log), ev);
    var evs := ParseLog(log);
    assert (evs + [Carried(ev)])[..|evs|] == evs;
  }

  // ---- Every append closes the log ----

  ghost predicate EndsClosed(s: Bytes) {
    |s| >= 3 && s[|s| - 3] != '\n' && s[|s| - 2] == '\n' && s[|s| - 1] == '\n'
  }

  lemma EndsCut(s: Bytes, k: nat)
    requires EndsClosed(s) && k <= |s| - 3
    ensures EndsClosed(s[k..])
  {
    var t := s[k..];
    assert t[|t| - 3] == s[|s| - 3] && t[|t| - 2] == s[|s| - 2] && t[|t| - 1] == s[|s| - 1];
  }

  lemma {:induction false} FindsBlank(s: Bytes)
    requires EndsClosed(s)
    ensures FindBlank(s) < |s| && s[FindBlank(s)] == '\n' && s[FindBlank(s) + 1] == '\n'
  {
    if !(s[0] == '\n' && s[1] == '\n') {
      if |s| == 3 {
        assert s[1..][0] == '\n' && s[1..][1] == '\n';
      } else {
        EndsCut(s, 1);
        FindsBlank(s[1..]);
      }
    }
  }

  lemma {:induction false} EndsClosedIsClosed(s: Bytes)
    requires EndsClosed(s)
    ensures Closed(s)
    decreases |s|
  {
    hide FindBlank;
    FindsBlank(s);
    EmptyHasNoBlank();
    var i := FindBlank(s);
    var rest := s[i + 2..];
    assert SplitBlocks(s) == [s[..i]] + SplitBlocks(rest);
    if rest == "" {
      assert SplitBlocks("") == [""];
    } else {
      EndsCut(s, i + 2);
      EndsClosedIsClosed(rest);
    }
  }

  lemma BlockEnds(ls: seq<string>)
    requires TextLines(ls) && ls != []
    ensures EndsClosed(Unlines(ls) + "\n")
  {
    UnlinesUnclosed(ls);
    var line := ls[|ls| - 1];
    var b := Unclosed(ls);
    assert b[|b| - 1] == line[|line| - 1] && line[|line| - 1] in line;
  }

  lemma EndsAfter(log: Bytes, s: Bytes)
    requires EndsClosed(s)
    ensures EndsClosed(log + s)
  {
  }

  /** Whatever the log held, a torn tail included, it is closed after an append. */
  lemma AppendCloses(log: Bytes, ev: Event)
    requires CleanEvent(ev)
    ensures Closed(log + Block(ev))
  {
    BlockIsLines(ev);
    hide Closed, CleanEvent, EventLines, Unlines, Block, EndsClosed, FieldMap;
    BlockEnds(EventLines(ev));
    EndsAfter(log, Block(ev));
    EndsClosedIsClosed(log + Block(ev));
  }

  // ---- What a replay can contain ----

  ghost predicate PlainAgents(agents: Agents) {
    forall id :: id in agents ==>
      id != "" && OneLine(id) && OneLine(agents[id].role) && agents[id].agentId == id
      && agents[id].membership in ["alive", "removed"]
  }

  lemma BlockIsPlain(block: Bytes)
    ensures match ParseBlock(block)
            case None => true
            case Some(ev) => ev.agentId != "" && OneLine(ev.agentId) && OneLine(ev.role)
  {
    var lines := Split(TrimNewlines(block), '\n');
    FieldMapOneLine(lines, map[]);
    hide FieldMap, Split, TrimNewlines, IsTimestamp;
  }

  lemma {:induction false} BlocksArePlain(bs: seq<Bytes>)
    ensures forall ev :: ev in ParseBlocks(bs) ==> ev.agentId != "" && OneLine(ev.agentId) && OneLine(ev.role)
  {
    hide ParseBlock;
    if bs != [] {
      BlockIsPlain(bs[0]);
      BlocksArePlain(bs[1..]);
    }
  }

  lemma {:induction false} FoldIsPlain(evs: seq<Event>)
    requires forall ev :: ev in evs ==> ev.agentId != "" && OneLine(ev.agentId) && OneLine(ev.role)
    ensures PlainAgents(Fold(evs))
  {
    if evs != [] {
      var init, last := evs[..|evs| - 1], evs[|evs| - 1];
      assert forall ev :: ev in init ==> ev in evs;
      FoldIsPlain(init);
      assert last in evs;
    }
  }

  /** Whatever bytes the registry log holds, every agent it yields has a one-line id and role. */
  lemma AgentsArePlain(log: Bytes)
    ensures PlainAgents(AgentsOf(log))
  {
    BlocksArePlain(SplitBlocks(log));
    FoldIsPlain(ParseLog(log));
  }
}
