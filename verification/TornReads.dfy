/** What a torn registry append does to every read before the next append. The bytes behind the last blank
    line are read as a block: depending on where the tear is, nothing is read, or an event cut short, which
    may name another agent, or the whole event although its append never returned. */
module TornReads {
  import opened Text
  import opened Codec
  import opened CodecLaws
  import opened RegistryLog
  import opened RegistryLaws
  import opened TornRegistry

  // ---- The tail is one block ----

  lemma {:induction false} NoBlankInLine(q: string)
    requires OneLine(q)
    ensures FindBlank(q) == |q|
  {
    if |q| >= 2 {
      assert q[0] in q;
      NoBlankInLine(q[1..]);
    }
  }

  lemma {:induction false} NoBlankInLines(ls: seq<string>, q: string)
    requires TextLines(ls) && OneLine(q)
    ensures FindBlank(Unlines(ls) + q) == |Unlines(ls) + q|
    ensures ls != [] ==> Unlines(ls) != "" && Unlines(ls)[0] != '\n'
  {
    hide FindBlank;
    if ls == [] {
      NoBlankInLine(q);
      assert Unlines(ls) + q == q;
    } else {
      var rest := Unlines(ls[1..]) + q;
      assert Unlines(ls) + q == ls[0] + "\n" + rest;
      NoBlankInLines(ls[1..], q);
      FindBlankLine(ls[0], rest);
      assert ls[0][0] in ls[0] && Unlines(ls)[0] == ls[0][0];
      assert ls[1..] == [] ==> rest == q && (q != "" ==> q[0] in q);
    }
  }

  lemma ReadsOnlyTrimmed(b: Bytes, c: Bytes)
    requires TrimNewlines(b) == TrimNewlines(c)
    ensures ParseBlock(b) == ParseBlock(c)
  {
    hide TrimNewlines, FieldMap, Split, EventOf;
  }

  /** Lines with or without their last newline are read alike. */
  lemma UnlinesAreRead(ls: seq<string>)
    requires TextLines(ls)
    ensures ParseBlock(Unlines(ls)) == EventIn(ls)
    ensures ls != [] ==> ParseBlock(Unclosed(ls)) == EventIn(ls)
  {
    if ls == [] {
      EmptyBlock();
      assert Get(map[], "event") == "" by { NothingThere(); }
    } else {
      BlockOfLines(ls);
      UnlinesUnclosed(ls);
      var b := Unclosed(ls);
      hide Unclosed, Unlines, EventIn, ParseBlock;
      assert (b + "\n")[..|b|] == b;
      ReadsOnlyTrimmed(b + "\n", b);
    }
  }

  lemma OneBlock(p: Bytes)
    requires FindBlank(p) == |p|
    ensures SplitBlocks(p) == [p]
  {
    hide FindBlank;
  }

  lemma TailBlocks(log: Bytes, p: Bytes) returns (init: seq<Bytes>)
    requires Closed(log) && FindBlank(p) == |p|
    ensures SplitBlocks(log) == init + [""] && SplitBlocks(log + p) == init + [p]
  {
    hide SplitBlocks, FindBlank;
    var bs := SplitBlocks(log);
    init := bs[..|bs| - 1];
    SplitAppend(log, p);
    OneBlock(p);
  }

  /** One block behind a closed log. */
  lemma TailAppended(log: Bytes, p: Bytes)
    requires Closed(log) && FindBlank(p) == |p|
    ensures ParseLog(log + p) == ParseLog(log) + match ParseBlock(p) case None => [] case Some(e) => [e]
  {
    hide SplitBlocks, ParseBlock, ParseBlocks, FindBlank, Closed;
    var init := TailBlocks(log, p);
    ParseBlocksSnoc(init, p);
    EmptyLast(init);
  }

  lemma EmptyLast(init: seq<Bytes>)
    ensures ParseBlocks(init + [""]) == ParseBlocks(init)
  {
    hide ParseBlock, ParseBlocks;
    EmptyBlock();
    ParseBlocksSnoc(init, "");
    assert ParseBlocks(init) + [] == ParseBlocks(init);
  }

  // ---- The lines of a tear ----

  /** The lines there are, the unfinished one included. */
  function TornLines(torn: Event, k: nat, q: string): seq<string>
    requires k <= |LinePairs(torn)|
  {
    LinesOf(LinePairs(torn)[..k]) + if q == "" then [] else [q]
  }

  lemma TearIsOneLine(torn: Event, k: nat, q: string)
    requires CleanEvent(torn) && TornAt(torn, k, q)
    ensures OneLine(q)
  {
    if q != "" {
      CandidatesAreGood(torn);
      LineFacts(LinePairs(torn)[k].0, LinePairs(torn)[k].1);
      PartIsOneLine(q, Line(LinePairs(torn)[k].0, LinePairs(torn)[k].1));
    }
  }

  /** Reading a log with a torn tail reads the lines of the tear as one more block. */
  lemma TornIsRead(log: Bytes, torn: Event, k: nat, q: string)
    requires Closed(log) && CleanEvent(torn) && TornAt(torn, k, q)
    ensures ParseLog(log + TornText(torn, k, q))
            == ParseLog(log) + match EventIn(TornLines(torn, k, q)) case None => [] case Some(e) => [e]
  {
    TearIsOneLine(torn, k, q);
    TornLinesAreText(torn, k);
    var a := LinesOf(LinePairs(torn)[..k]);
    assert TornText(torn, k, q) == Unlines(a) + q && TornLines(torn, k, q) == a + if q == "" then [] else [q];
    hide CleanEvent, LinePairs, Closed, ParseLog, ParseBlock, EventIn, FindBlank, Unlines, Render, LinesOf, FieldMap, TornText,
      TornLines, TornAt;
    NoBlankInLines(a, q);
    TailAppended(log, Unlines(a) + q);
    PartIsRead(a, q);
  }

  /** Whole lines and a part of the next one, read as a block. */
  lemma PartIsRead(a: seq<string>, q: string)
    requires TextLines(a) && OneLine(q)
    ensures ParseBlock(Unlines(a) + q) == EventIn(a + if q == "" then [] else [q])
  {
    hide ParseBlock, EventIn, Unlines, OneLine;
    if q == "" {
      assert a + [] == a && Unlines(a) + q == Unlines(a);
      UnlinesAreRead(a);
    } else {
      var ls := a + [q];
      assert ls[..|ls| - 1] == a && ls[|ls| - 1] == q;
      UnlinesAreRead(ls);
    }
  }

  // ---- Its fields ----

  /** The unfinished line holds its field name and ": ". */
  ghost predicate Begun(torn: Event, k: nat, q: string)
    requires TornAt(torn, k, q)
  {
    q != "" && |q| >= |LinePairs(torn)[k].0| + 2
  }

  /** The fields there are, the unfinished one as far as it goes. */
  ghost function Kept(torn: Event, k: nat, q: string): seq<(string, string)>
    requires TornAt(torn, k, q)
  {
    var ps := LinePairs(torn);
    ps[..k] + if Begun(torn, k, q) then [(ps[k].0, q[|ps[k].0| + 2..])] else []
  }

  /** A part of a line has a field exactly when it holds the whole field name and ": ". */
  lemma PartCut(key: string, v: string, q: string)
    requires ':' !in key && q <= Line(key, v)
    ensures |q| >= |key| + 2 ==> q == key + ": " + q[|key| + 2..] && Cut(q) == Some((key, q[|key| + 2..]))
    ensures |q| < |key| + 2 ==> Cut(q) == None
  {
    hide Cut;
    if |q| >= |key| + 2 {
      assert q[..|key| + 2] == Line(key, v)[..|key| + 2] == key + ": ";
      assert q == key + ": " + q[|key| + 2..];
      CutLine(key, q[|key| + 2..]);
    } else if Cut(q).Some? {
      FieldIsWhole(key, v, q);
    }
  }

  lemma FieldIsWhole(key: string, v: string, q: string)
    requires ':' !in key && q <= Line(key, v) && Cut(q).Some?
    ensures |q| >= |key| + 2
  {
    hide Cut;
    var i := |Cut(q).value.0|;
    assert q[i] == ':' && q[i] == Line(key, v)[i] && |q| >= i + 2;
    assert forall j :: 0 <= j < |key| ==> Line(key, v)[j] == key[j] && key[j] in key;
  }

  lemma TornFields(torn: Event, k: nat, q: string)
    requires CleanEvent(torn) && TornAt(torn, k, q)
    ensures FieldMap(TornLines(torn, k, q), map[])
            == if q != "" && !Begun(torn, k, q) then None else Some(Assign(Kept(torn, k, q), map[]))
  {
    TornLinesAreText(torn, k);
    CandidatesAreGood(torn);
    var ps := LinePairs(torn);
    var a, base := LinesOf(ps[..k]), Assign(ps[..k], map[]);
    if q == "" {
      assert TornLines(torn, k, q) == a && Kept(torn, k, q) == ps[..k];
    } else {
      assert ps[k].0 != "" && ':' !in ps[k].0;
      hide CleanEvent, LinePairs, Assign, FieldMap, Cut, Line, LinesOf;
      PartCut(ps[k].0, ps[k].1, q);
      FieldMapConcat(a, [q], map[]);
      if Begun(torn, k, q) {
        AssignSnoc(ps[..k], (ps[k].0, q[|ps[k].0| + 2..]), map[]);
      }
      OneLineField(q, base);
    }
  }

  lemma OneLineField(q: string, base: map<string, string>)
    ensures FieldMap([q], base)
            == match Cut(q)
               case None => None
               case Some(kv) => if kv.0 == "" then None else Some(base[kv.0 := kv.1])
  {
    hide Cut;
    assert [q][1..] == [];
  }

  /** The event the lines of a tear spell. */
  ghost function Spelled(torn: Event, k: nat, q: string): Option<Event>
    requires TornAt(torn, k, q)
  {
    if q != "" && !Begun(torn, k, q) then None else EventOf(Assign(Kept(torn, k, q), map[]))
  }

  /** Every read before the next append sees the event the torn lines spell, if they spell one. */
  lemma TornTailSpells(log: Bytes, torn: Event, k: nat, q: string)
    requires Closed(log) && CleanEvent(torn) && TornAt(torn, k, q)
    ensures ParseLog(log + TornText(torn, k, q))
            == ParseLog(log) + match Spelled(torn, k, q) case None => [] case Some(e) => [e]
  {
    TornIsRead(log, torn, k, q);
    TornFields(torn, k, q);
    hide CleanEvent, LinePairs, Closed, ParseLog, TornText, TornLines, FieldMap, EventOf, Kept, Begun, TornAt, Assign;
  }

  /** A kept field reads its value as far as it goes. */
  lemma KeptField(torn: Event, k: nat, q: string, i: nat)
    requires CleanEvent(torn) && TornAt(torn, k, q) && i < |LinePairs(torn)|
    ensures var ps := LinePairs(torn);
            Get(Assign(Kept(torn, k, q), map[]), ps[i].0)
            == if i < k then ps[i].1 else if i == k && Begun(torn, k, q) then q[|ps[i].0| + 2..] else ""
  {
    FirstLines(torn);
    var ps, kept := LinePairs(torn), Kept(torn, k, q);
    KeptNames(torn, k, q);
    hide CleanEvent, LinePairs, Assign, TornAt, Candidates, Kept, Begun, Get;
    if i < |kept| {
      FieldAt(kept, map[], i);
    } else {
      NothingThere();
      FieldAbsent(kept, map[], ps[i].0);
    }
  }

  lemma KeptNames(torn: Event, k: nat, q: string)
    requires TornAt(torn, k, q)
    ensures var ps, kept := LinePairs(torn), Kept(torn, k, q);
            && |kept| <= |ps| && |kept| == (if Begun(torn, k, q) then k + 1 else k)
            && forall j :: 0 <= j < |kept| ==>
                 kept[j].0 == ps[j].0 && kept[j].1 == if j < k then ps[j].1 else q[|ps[j].0| + 2..]
  {
    hide LinePairs;
  }

  const AGENT_FIELD: string := "agent_id: "

  /** What a tear spells: its kind, once the first line is whole, and as much of the agent as there is. */
  lemma SpelledFacts(torn: Event, k: nat, q: string)
    requires CleanEvent(torn) && TornAt(torn, k, q)
    ensures Spelled(torn, k, q).Some?
            <==> (q != "" ==> Begun(torn, k, q)) && (k >= 2 || (k == 1 && |q| > |AGENT_FIELD|))
    ensures Spelled(torn, k, q).Some? ==>
              var e := Spelled(torn, k, q).value;
              e.kind == torn.kind && e.agentId == if k == 1 then q[|AGENT_FIELD|..] else torn.agentId
  {
    FirstLines(torn);
    KeptField(torn, k, q, 0);
    KeptField(torn, k, q, 1);
    assert torn.kind != "" && torn.agentId != "" && |"agent_id"| + 2 == |AGENT_FIELD|;
    hide CleanEvent, LinePairs, Assign, Kept, Candidates, Get;
    if k == 1 && q != "" {
      assert Begun(torn, k, q) <==> |q| >= |AGENT_FIELD|;
    }
  }

  // ---- When the torn block is dropped ----

  /** Only part of the first line is there, or the unfinished line has no ": " yet, or the second line has no
      byte of the agent yet. */
  ghost predicate DroppedTail(p: Bytes) {
    var ls := Split(p, '\n');
    var q := ls[|ls| - 1];
    |ls| == 1 || (q != "" && Cut(q).None?) || (|ls| == 2 && |q| <= |AGENT_FIELD|)
  }

  lemma {:induction false} SplitLines(ls: seq<string>, q: string)
    requires TextLines(ls) && OneLine(q)
    ensures Split(Unlines(ls) + q, '\n') == ls + [q]
  {
    hide Split;
    if ls == [] {
      SplitOneLine(q);
      assert Unlines(ls) + q == q;
    } else {
      SplitLines(ls[1..], q);
      SplitLine(ls[0], Unlines(ls[1..]) + q);
      assert Unlines(ls) + q == ls[0] + "\n" + (Unlines(ls[1..]) + q);
    }
  }

  lemma DroppedIff(torn: Event, k: nat, q: string)
    requires CleanEvent(torn) && TornAt(torn, k, q)
    ensures DroppedTail(TornText(torn, k, q)) <==> Spelled(torn, k, q).None?
  {
    TearIsOneLine(torn, k, q);
    TornLinesAreText(torn, k);
    SpelledFacts(torn, k, q);
    CandidatesAreGood(torn);
    var ps := LinePairs(torn);
    assert TornText(torn, k, q) == Unlines(LinesOf(ps[..k])) + q;
    if q != "" {
      assert ':' !in ps[k].0;
      hide Cut;
      PartCut(ps[k].0, ps[k].1, q);
    }
    hide CleanEvent, LinePairs, Spelled, TornText, Split, Render, Unlines, FieldMap, TextLines, OneLine, Cut, Line, GoodPairs;
    SplitLines(LinesOf(ps[..k]), q);
  }

  /** For every tear of every block: reads see nothing of it exactly when the tail is one of the three. */
  lemma TornTailIsDroppedExactly(log: Bytes, torn: Event, p: Bytes)
    requires Closed(log) && CleanEvent(torn) && StrictPrefix(p, Block(torn))
    ensures ParseLog(log + p) == ParseLog(log) <==> DroppedTail(p)
  {
    var k, q := TearOf(torn, p);
    hide Closed, CleanEvent, Block, TornText, DroppedTail, ParseLog, Spelled, TornAt;
    TornTailSpells(log, torn, k, q);
    DroppedIff(torn, k, q);
    if Spelled(torn, k, q).None? {
      assert ParseLog(log) + [] == ParseLog(log);
    } else {
      assert |ParseLog(log + p)| == |ParseLog(log)| + 1;
    }
  }

  // ---- When nothing of a torn block is ever seen ----

  lemma LongerThanFirst(torn: Event, k: nat)
    requires CleanEvent(torn) && k <= |LinePairs(torn)|
    ensures k == 0 ==> TornText(torn, k, "") == ""
    ensures k == 1 ==> TornText(torn, k, "") == Line("event", torn.kind) + "\n"
    ensures k >= 2 ==> |TornText(torn, k, "")| > |Line("event", torn.kind) + "\n"|
  {
    FirstLines(torn);
    var ps := LinePairs(torn)[..k];
    hide LinePairs, CleanEvent, Candidates;
    if k >= 1 {
      assert Render(ps) == Line(ps[0].0, ps[0].1) + "\n" + Render(ps[1..]);
      assert k == 1 ==> ps[1..] == [];
    }
  }

  /** A tear inside a line leaves neither nothing nor the first line. */
  lemma CutOffFirst(torn: Event, k: nat, q: string)
    requires CleanEvent(torn) && TornAt(torn, k, q) && q != ""
    ensures TornText(torn, k, q) != "" && TornText(torn, k, q) != Line("event", torn.kind) + "\n"
  {
    TearIsOneLine(torn, k, q);
    var p := TornText(torn, k, q);
    hide CleanEvent, LinePairs, Render;
    assert p[|p| - 1] == q[|q| - 1] && q[|q| - 1] in q;
  }

  lemma FirstLineOnly(torn: Event, k: nat, q: string)
    requires CleanEvent(torn) && TornAt(torn, k, q)
    ensures var p := TornText(torn, k, q);
            p == "" || p == Line("event", torn.kind) + "\n" <==> q == "" && k <= 1
  {
    hide CleanEvent, LinePairs, TornText, Line;
    LongerThanFirst(torn, k);
    if q != "" {
      CutOffFirst(torn, k, q);
    }
  }

  lemma DroppedAndSafe(torn: Event, k: nat, q: string, stamped: bool)
    requires CleanEvent(torn) && TornAt(torn, k, q)
    ensures DroppedTail(TornText(torn, k, q)) && SafeTail(TornText(torn, k, q), stamped) <==> q == "" && k <= 1
  {
    FirstLines(torn);
    hide CleanEvent, LinePairs, TornText, DroppedTail, SafeTail, Spelled, Begun, Candidates;
    DroppedIff(torn, k, q);
    SpelledFacts(torn, k, q);
    SafeIff(torn, k, q, stamped);
  }

  /** The torn block is neither read before the next append nor felt by it exactly when the tear left nothing
      or exactly the first line. */
  lemma TearIsHarmlessExactly(log: Bytes, torn: Event, p: Bytes, stamped: bool)
    requires Closed(log) && CleanEvent(torn) && StrictPrefix(p, Block(torn))
    ensures ParseLog(log + p) == ParseLog(log) && NextApplies(log, p, stamped)
            <==> p == "" || p == Line("event", torn.kind) + "\n"
  {
    var k, q := TearOf(torn, p);
    hide Closed, CleanEvent, Block, LinePairs, DroppedTail, ParseLog, NextApplies, SafeTail, TornText, Line, TornAt;
    TornTailIsDroppedExactly(log, torn, p);
    NextEventAppliesExactly(log, torn, p, stamped);
    DroppedAndSafe(torn, k, q, stamped);
    FirstLineOnly(torn, k, q);
  }

  // ---- What a torn block shows ----

  /** The registry as it is read before the next append. */
  lemma ReadsAs(log: Bytes, torn: Event, k: nat, q: string)
    requires Closed(log) && CleanEvent(torn) && TornAt(torn, k, q)
    ensures AgentsOf(log + TornText(torn, k, q))
            == match Spelled(torn, k, q) case None => AgentsOf(log) case Some(e) => ApplyEvent(AgentsOf(log), e)
  {
    TornTailSpells(log, torn, k, q);
    hide CleanEvent, LinePairs, Closed, ParseLog, TornText, Spelled, TornAt, ApplyEvent;
    var evs := ParseLog(log);
    if Spelled(torn, k, q).Some? {
      assert (evs + [Spelled(torn, k, q).value])[..|evs|] == evs;
    } else {
      assert evs + [] == evs;
    }
  }

  /** A tear inside the agent's id changes another agent, whose id is what is left of it, on every read: an
      unregister of the one makes the other not alive, and the one it was meant for stays as it was. */
  lemma WrongVictim(log: Bytes, torn: Event, q: string)
    requires Closed(log) && CleanEvent(torn) && TornAt(torn, 1, q)
    requires |AGENT_FIELD| < |q| < |Line("agent_id", torn.agentId)|
    ensures var agents, victim := AgentsOf(log + TornText(torn, 1, q)), q[|AGENT_FIELD|..];
            && victim != torn.agentId && victim <= torn.agentId
            && (torn.kind == "unregister" ==> !IsAlive(agents, victim))
            && (torn.kind == "register" ==> IsAlive(agents, victim))
            && (torn.agentId in agents <==> torn.agentId in AgentsOf(log))
            && (torn.agentId in agents ==> agents[torn.agentId] == AgentsOf(log)[torn.agentId])
  {
    CutAgent(torn, q);
    ReadsAs(log, torn, 1, q);
    SpelledFacts(torn, 1, q);
    hide Closed, CleanEvent, LinePairs, AgentsOf, TornText, Spelled, Begun;
  }

  /** What is left of the agent's id. */
  lemma CutAgent(torn: Event, q: string)
    requires CleanEvent(torn) && TornAt(torn, 1, q)
    requires |AGENT_FIELD| < |q| < |Line("agent_id", torn.agentId)|
    ensures Begun(torn, 1, q)
    ensures q[|AGENT_FIELD|..] != torn.agentId && q[|AGENT_FIELD|..] <= torn.agentId
  {
    FirstLines(torn);
    hide CleanEvent, LinePairs, Candidates;
    assert |"agent_id"| + 2 == |AGENT_FIELD|;
    var victim := q[|AGENT_FIELD|..];
    assert victim == Line("agent_id", torn.agentId)[|AGENT_FIELD|..|q|] == torn.agentId[..|victim|];
  }

  const TORN_UNREGISTER: Event := Event("unregister", "ab", "", "", "", "", "", STAMP)

  lemma TornUnregister()
    ensures CleanEvent(TORN_UNREGISTER)
  {
    assert OneLine("unregister") && OneLine("ab") && OneLine("");
  }

  /** For example an unregister of ab that is torn after "agent_id: a". */
  lemma WrongVictimExample(log: Bytes)
    requires Closed(log)
    ensures TornAt(TORN_UNREGISTER, 1, "agent_id: a")
    ensures !IsAlive(AgentsOf(log + "event: unregister\nagent_id: a"), "a")
  {
    var q := "agent_id: a";
    TornUnregister();
    CutUnregister();
    hide Closed, CleanEvent, LinePairs, AgentsOf, TornText, TornAt;
    WrongVictim(log, TORN_UNREGISTER, q);
    assert q[|AGENT_FIELD|..] == "a" && |Line("agent_id", "ab")| == |q| + 1;
  }

  lemma CutUnregister()
    ensures TornAt(TORN_UNREGISTER, 1, "agent_id: a")
    ensures TornText(TORN_UNREGISTER, 1, "agent_id: a") == "event: unregister\nagent_id: a"
  {
    TornUnregister();
    FirstLines(TORN_UNREGISTER);
    hide CleanEvent, LinePairs, Candidates;
    var q := "agent_id: a";
    assert Line("agent_id", "ab") == q + "b";
    LongerThanFirst(TORN_UNREGISTER, 1);
    assert Line("event", "unregister") + "\n" == "event: unregister\n";
    assert TornText(TORN_UNREGISTER, 1, q) == TornText(TORN_UNREGISTER, 1, "") + q by { hide Render; }
    hide TornText;
    assert "event: unregister\n" + q == "event: unregister\nagent_id: a";
  }

  /** The part of the role that a tear behind the second line leaves. */
  function RoleThere(torn: Event, k: nat, q: string): string {
    if k >= 3 then torn.role else if |q| >= |"role: "| then q[|"role: "|..] else ""
  }

  /** The register of an agent, once its second line is whole, is read at once with as much of the role as
      there is: role sends miss the live agent until the next append. */
  lemma RegisterIsReadEarly(log: Bytes, torn: Event, k: nat, q: string, rs: seq<string>)
    requires Closed(log) && CleanEvent(torn) && torn.kind == "register" && TornAt(torn, k, q)
    requires k >= 2 && (q != "" ==> Begun(torn, k, q))
    ensures var agents := AgentsOf(log + TornText(torn, k, q));
            && IsAlive(agents, torn.agentId)
            && agents[torn.agentId].role == RoleThere(torn, k, q)
            && (agents[torn.agentId].role != torn.role && IsExpansion(agents, torn.role, rs) ==> torn.agentId !in rs)
  {
    ReadsAs(log, torn, k, q);
    SpelledFacts(torn, k, q);
    RoleSoFar(torn, k, q);
    hide Closed, CleanEvent, LinePairs, AgentsOf, TornText, Begun, Kept, Assign, TornAt;
  }

  lemma RoleSoFar(torn: Event, k: nat, q: string)
    requires CleanEvent(torn) && torn.kind == "register" && TornAt(torn, k, q)
    requires k >= 2 && (q != "" ==> Begun(torn, k, q))
    ensures Get(Assign(Kept(torn, k, q), map[]), "role") == RoleThere(torn, k, q)
  {
    RoleIsThird(torn);
    KeptField(torn, k, q, 2);
    assert |"role"| + 2 == |"role: "|;
    hide CleanEvent, LinePairs, Kept, Assign;
  }

  lemma RoleIsThird(ev: Event)
    requires CleanEvent(ev) && ev.kind == "register"
    ensures |LinePairs(ev)| >= 3 && LinePairs(ev)[2] == ("role", ev.role)
  {
    var cs := Candidates(ev);
    TwoFirst(cs);
    assert cs[..3][..2] == cs[..2];
    assert Select(cs[..3]) == Select(cs[..2]) + [("role", ev.role)];
    SelectPrefix(cs, 3);
    hide Select, Candidates;
    assert LinePairs(ev)[..3][2] == LinePairs(ev)[2];
  }

  /** An unregister torn behind its second line removes its agent on every read and gives it back with the
      next append, whatever that is about, unless that registers or unregisters the agent itself. */
  lemma UnregisterIsTakenBack(log: Bytes, torn: Event, ev: Event)
    requires Closed(log) && CleanEvent(torn) && torn.kind == "unregister" && 2 <= |LinePairs(torn)|
    requires CleanEvent(ev) && ev.ts != "" && !IsMembership(ev, torn.agentId)
    ensures var p := TornText(torn, 2, "");
            && !IsAlive(AgentsOf(log + p), torn.agentId)
            && (IsAlive(AgentsOf(log + p + Block(ev)), torn.agentId) <==> IsAlive(AgentsOf(log), torn.agentId))
  {
    FirstLines(torn);
    ReadsAs(log, torn, 2, "");
    SpelledFacts(torn, 2, "");
    hide Closed, CleanEvent, LinePairs, AgentsOf, TornText, Spelled, Block, Candidates;
    assert !HasField(torn, 2, "model");
    SafeApplies(log, torn, 2, true);
    OtherEventsKeepMembership(AgentsOf(log), ev, torn.agentId);
    hide ApplyEvent;
  }

  // ---- When reads see the torn block whole or not at all ----

  lemma {:induction false} RenderConcat(xs: seq<(string, string)>, ys: seq<(string, string)>)
    ensures Render(xs + ys) == Render(xs) + Render(ys)
  {
    if xs == [] {
      assert xs + ys == ys;
    } else {
      assert (xs + ys)[1..] == xs[1..] + ys;
      RenderConcat(xs[1..], ys);
    }
  }

  /** All lines are there, the last newline and the closing one apart. */
  ghost predicate AllThere(torn: Event, k: nat, q: string)
    requires TornAt(torn, k, q)
  {
    var n := |LinePairs(torn)|;
    k == n || (k == n - 1 && q == Line(LinePairs(torn)[k].0, LinePairs(torn)[k].1))
  }

  lemma LengthsTell(torn: Event, k: nat, q: string)
    requires TornAt(torn, k, q)
    ensures |TornText(torn, k, q)| + 2 >= |Block(torn)| <==> AllThere(torn, k, q)
  {
    var ps := LinePairs(torn);
    assert Block(torn) == Render(ps) + "\n";
    hide LinePairs, Block;
    RenderConcat(ps[..k], ps[k..]);
    assert ps == ps[..k] + ps[k..];
    if k < |ps| {
      var line := Line(ps[k].0, ps[k].1);
      assert ps[k..][1..] == ps[k + 1..] && Render(ps[k..]) == line + "\n" + Render(ps[k + 1..]);
      assert k + 1 < |ps| ==> |Render(ps[k + 1..])| > 0;
      assert k + 1 == |ps| ==> Render(ps[k + 1..]) == "";
    } else {
      assert Render(ps[k..]) == "";
    }
  }

  lemma WholeIsCarried(torn: Event, k: nat, q: string)
    requires CleanEvent(torn) && TornAt(torn, k, q) && AllThere(torn, k, q)
    ensures Spelled(torn, k, q) == Some(Carried(torn))
  {
    var ps := LinePairs(torn);
    EventFields(torn);
    FirstLines(torn);
    hide CleanEvent, EventOf, Carried, Assign, Candidates, Select;
    if k == |ps| {
      assert Kept(torn, k, q) == ps;
    } else {
      assert q[|ps[k].0| + 2..] == ps[k].1;
      assert Kept(torn, k, q) == ps[..k] + [ps[k]] == ps;
    }
  }

  lemma TimeIsLast(ev: Event)
    requires ev.ts != ""
    ensures LinePairs(ev) != [] && LinePairs(ev)[|LinePairs(ev)| - 1] == ("ts", ev.ts)
  {
    var cs := Candidates(ev);
    assert cs[|cs| - 1] == ("ts", ev.ts, true);
    hide Candidates;
  }

  /** A time that is not all there does not read as one. */
  lemma PartOfTime(torn: Event, k: nat, q: string)
    requires CleanEvent(torn) && torn.ts != "" && TornAt(torn, k, q) && Spelled(torn, k, q).Some? && !AllThere(torn, k, q)
    ensures Spelled(torn, k, q).value.ts == ""
  {
    TimeIsLast(torn);
    var n := |LinePairs(torn)|;
    KeptField(torn, k, q, n - 1);
    hide CleanEvent, LinePairs, Kept, Assign;
    if k == n - 1 && Begun(torn, k, q) {
      assert Line("ts", torn.ts) == "ts: " + torn.ts;
      assert |q| < |Line("ts", torn.ts)|;
    }
  }

  /** Reads see of the torn block nothing at all or the event as it was to be written exactly when the tail is
      dropped or lacks no more than its two last newlines. */
  lemma TearIsAtomicExactly(log: Bytes, torn: Event, p: Bytes)
    requires Closed(log) && CleanEvent(torn) && torn.ts != "" && StrictPrefix(p, Block(torn))
    ensures ParseLog(log + p) == ParseLog(log) || ParseLog(log + p) == ParseLog(log) + [Carried(torn)]
            <==> DroppedTail(p) || |p| + 2 >= |Block(torn)|
  {
    var k, q := TearOf(torn, p);
    hide Closed, CleanEvent, Block, TornText, DroppedTail, ParseLog, Spelled, TornAt, AllThere, LinePairs;
    TornTailIsDroppedExactly(log, torn, p);
    TornTailSpells(log, torn, k, q);
    LengthsTell(torn, k, q);
    if AllThere(torn, k, q) {
      WholeIsCarried(torn, k, q);
    } else if Spelled(torn, k, q).Some? {
      PartOfTime(torn, k, q);
      var e, evs := Spelled(torn, k, q).value, ParseLog(log);
      var n := |evs|;
      assert (evs + [e])[n] == e && (evs + [Carried(torn)])[n] == Carried(torn);
    } else {
      assert ParseLog(log) + [] == ParseLog(log);
    }
  }
}
