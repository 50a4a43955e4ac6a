/** What a torn registry append does to the next event; what it does to the reads before that is shown in
    TornReads. The log is never truncated, so the next block is written behind the torn one and both are
    read as one: depending on where the tear is, the next event is applied as written, picks up stale
    fields, turns into an event of the torn kind, or is lost. */
module TornRegistry {
  import opened Text
  import opened Codec
  import opened CodecLaws
  import opened RegistryLog
  import opened RegistryLaws

  function LinePairs(ev: Event): seq<(string, string)> {
    Select(Candidates(ev))
  }

  /** The tear: the first k lines of the block are whole, and q is what is there of the next one. */
  ghost predicate TornAt(ev: Event, k: nat, q: string) {
    && k <= |LinePairs(ev)|
    && (q != "" ==> k < |LinePairs(ev)| && q <= Line(LinePairs(ev)[k].0, LinePairs(ev)[k].1))
  }

  function TornText(ev: Event, k: nat, q: string): Bytes
    requires k <= |LinePairs(ev)|
  {
    Render(LinePairs(ev)[..k]) + q
  }

  // ---- Every strict prefix is such a tear ----

  lemma {:induction false} PrefixIsTear(pairs: seq<(string, string)>, p: Bytes) returns (k: nat, q: string)
    requires StrictPrefix(p, Render(pairs) + "\n")
    ensures k <= |pairs| && p == Render(pairs[..k]) + q
    ensures q != "" ==> k < |pairs| && q <= Line(pairs[k].0, pairs[k].1)
  {
    if pairs == [] {
      k, q := 0, "";
      assert p == "" && pairs[..0] == [];
    } else {
      var line := Line(pairs[0].0, pairs[0].1);
      var rest := Render(pairs[1..]) + "\n";
      assert Render(pairs) + "\n" == line + "\n" + rest;
      if |p| <= |line| {
        k, q := 0, p;
        assert pairs[..0] == [] && p <= line;
      } else {
        var p' := p[|line| + 1..];
        assert p == line + "\n" + p' && StrictPrefix(p', rest);
        var k', q' := PrefixIsTear(pairs[1..], p');
        k, q := k' + 1, q';
        assert pairs[..k][0] == pairs[0] && pairs[..k][1..] == pairs[1..][..k'];
      }
    }
  }

  lemma TearOf(ev: Event, p: Bytes) returns (k: nat, q: string)
    requires StrictPrefix(p, Block(ev))
    ensures TornAt(ev, k, q) && p == TornText(ev, k, q)
  {
    k, q := PrefixIsTear(LinePairs(ev), p);
  }

  // ---- The block the next append makes of it ----

  /** The lines read as one block. */
  function Merged(torn: seq<string>, q: string, next: seq<string>): seq<string>
    requires next != []
  {
    if q == "" then torn + next else torn + ([q + next[0]] + next[1..])
  }

  lemma MergedText(torn: seq<string>, q: string, next: seq<string>)
    requires next != []
    ensures Unlines(torn) + q + Unlines(next) == Unlines(Merged(torn, q, next))
  {
    if q == "" {
      UnlinesConcat(torn, next);
    } else {
      UnlinesConcat(torn, [q + next[0]] + next[1..]);
      assert ([q + next[0]] + next[1..])[1..] == next[1..];
    }
  }

  lemma TornLinesAreText(ev: Event, k: nat)
    requires CleanEvent(ev) && k <= |LinePairs(ev)|
    ensures TextLines(LinesOf(LinePairs(ev)[..k])) && Render(LinePairs(ev)[..k]) == Unlines(LinesOf(LinePairs(ev)[..k]))
    ensures FieldMap(LinesOf(LinePairs(ev)[..k]), map[]) == Some(Assign(LinePairs(ev)[..k], map[]))
    ensures GoodPairs(LinePairs(ev))
  {
    CandidatesAreGood(ev);
    hide Select, Candidates, CleanEvent;
    PairLines(LinePairs(ev)[..k]);
    RenderUnlines(LinePairs(ev)[..k]);
    FieldMapLines(LinePairs(ev)[..k], map[]);
  }

  lemma PartIsOneLine(q: string, line: string)
    requires OneLine(line) && q <= line
    ensures OneLine(q)
  {
    assert forall c :: c in q ==> c in line;
  }

  lemma MergedIsText(torn: seq<string>, q: string, next: seq<string>)
    requires TextLines(torn) && TextLines(next) && next != [] && OneLine(q)
    ensures TextLines(Merged(torn, q, next)) && Merged(torn, q, next) != []
  {
  }

  function MergedLines(torn: Event, k: nat, q: string, ev: Event): seq<string>
    requires k <= |LinePairs(torn)| && EventLines(ev) != []
  {
    Merged(LinesOf(LinePairs(torn)[..k]), q, EventLines(ev))
  }

  lemma MergedBytes(torn: Event, k: nat, q: string, ev: Event)
    requires CleanEvent(torn) && CleanEvent(ev) && TornAt(torn, k, q)
    ensures EventLines(ev) != []
    ensures var ls := MergedLines(torn, k, q, ev);
            TornText(torn, k, q) + Block(ev) == Unlines(ls) + "\n" && TextLines(ls) && ls != []
  {
    BlockIsLines(ev);
    TornLinesAreText(torn, k);
    var a := LinesOf(LinePairs(torn)[..k]);
    if q != "" {
      LineFacts(LinePairs(torn)[k].0, LinePairs(torn)[k].1);
      PartIsOneLine(q, Line(LinePairs(torn)[k].0, LinePairs(torn)[k].1));
    }
    assert OneLine(q);
    hide CleanEvent, Block, EventLines, LinePairs, FieldMap, Unlines, TextLines, GoodPairs, Line, LinesOf, Render, OneLine;
    MergedText(a, q, EventLines(ev));
    MergedIsText(a, q, EventLines(ev));
    hide Merged;
    assert Unlines(a) + q + (Unlines(EventLines(ev)) + "\n") == Unlines(a) + q + Unlines(EventLines(ev)) + "\n";
  }

  /** Appending to a torn log is appending the merged lines to the log before the tear. */
  lemma AppendedToTorn(log: Bytes, torn: Event, k: nat, q: string, ev: Event)
    requires Closed(log) && CleanEvent(torn) && CleanEvent(ev) && TornAt(torn, k, q)
    ensures EventLines(ev) != []
    ensures ParseLog(log + TornText(torn, k, q) + Block(ev))
            == ParseLog(log) + match EventIn(MergedLines(torn, k, q, ev)) case None => [] case Some(e) => [e]
  {
    MergedBytes(torn, k, q, ev);
    hide CleanEvent, Block, EventLines, Closed, ParseLog, EventIn, Unlines, TextLines, TornText, MergedLines, TornAt;
    var ls := MergedLines(torn, k, q, ev);
    LinesAppended(log, ls);
    assert log + TornText(torn, k, q) + Block(ev) == log + (TornText(torn, k, q) + Block(ev));
  }

  // ---- A tear at a line break ----

  /** The event with the model and time of a torn block where its own block omits them. */
  function WithStale(ev: Event, model: string, ts: string): Event {
    ev.(model := if ev.kind == "register" && ev.model == "" then model else ev.model,
        ts := if ev.ts == "" then ts else ev.ts)
  }

  function StaleModel(torn: Event, k: nat): string
    requires k <= |LinePairs(torn)|
  {
    Get(Assign(LinePairs(torn)[..k], map[]), "model")
  }

  function StaleTime(torn: Event, k: nat): string
    requires k <= |LinePairs(torn)|
  {
    ParseTime(Get(Assign(LinePairs(torn)[..k], map[]), "ts"))
  }

  lemma MergedFields(ev: Event, base: map<string, string>) returns (e: Event)
    requires CleanEvent(ev)
    ensures EventOf(Assign(LinePairs(ev), base)) == Some(e)
    ensures forall agents :: ApplyEvent(agents, e) == ApplyEvent(agents, WithStale(ev, Get(base, "model"), ParseTime(Get(base, "ts"))))
  {
    hide Select, Assign;
    CandidatesAreGood(ev);
    var cs := Candidates(ev);
    SelectedFields(cs, base, "");
    assert cs[0].0 == "event" && cs[1].0 == "agent_id" && cs[2].0 == "role" && cs[3].0 == "description";
    assert cs[4].0 == "working_dir" && cs[5].0 == "model" && cs[6].0 == "status" && cs[7].0 == "ts";
    hide Get, IsTimestamp;
    e := EventOf(Assign(LinePairs(ev), base)).value;
    var w := WithStale(ev, Get(base, "model"), ParseTime(Get(base, "ts")));
    assert e.kind == w.kind && e.agentId == w.agentId && e.ts == w.ts;
    assert w.kind == "register" ==>
        e.role == w.role && e.description == w.description && e.workingDir == w.workingDir && e.model == w.model;
    assert w.kind == "status" ==> e.status == w.status;
  }

  /** After a tear at a line break the next event is applied as written, but for the model and the time,
      which it takes from the torn block where its own block omits them. */
  lemma TornAtBreak(log: Bytes, torn: Event, k: nat, ev: Event)
    requires Closed(log) && CleanEvent(torn) && CleanEvent(ev) && k <= |LinePairs(torn)|
    ensures AgentsOf(log + TornText(torn, k, "") + Block(ev))
            == ApplyEvent(AgentsOf(log), WithStale(ev, StaleModel(torn, k), StaleTime(torn, k)))
  {
    AppendedToTorn(log, torn, k, "", ev);
    TornLinesAreText(torn, k);
    CandidatesAreGood(ev);
    var a, base := LinesOf(LinePairs(torn)[..k]), Assign(LinePairs(torn)[..k], map[]);
    FieldMapConcat(a, EventLines(ev), map[]);
    hide Select, Candidates, FieldMap, Assign, LinesOf, CleanEvent, GoodPairs, TextLines, Closed, ParseLog, Block, EventOf,
      ApplyEvent, TornText;
    assert EventLines(ev) == LinesOf(LinePairs(ev));
    FieldMapLines(LinePairs(ev), base);
    var e := MergedFields(ev, base);
    var evs := ParseLog(log);
    assert (evs + [e])[..|evs|] == evs;
  }

  // ---- A tear inside a line ----

  lemma {:induction false} CutColon(key: string, kind: string)
    requires ':' !in key
    ensures Cut(key + ":event" + ": " + kind) == Some((key + ":event", kind))
  {
    var line := key + ":event" + ": " + kind;
    if key == "" {
      CutLine("event", kind);
      var rest := "event" + ": " + kind;
      assert rest[0] == 'e' && line == ":" + rest && line[1..] == rest && line[1] == rest[0];
      assert [line[0]] + "event" == key + ":event";
    } else {
      assert key[0] in key;
      assert line[1..] == key[1..] + ":event" + ": " + kind;
      CutColon(key[1..], kind);
      assert [key[0]] + (key[1..] + ":event") == key + ":event";
    }
  }

  /** The tear leaves the field name and its ": ". */
  lemma MeetLate(key: string, u: string, kind: string)
    requires ':' !in key
    ensures Cut(key + ": " + u + Line("event", kind)) == Some((key, u + Line("event", kind)))
    ensures ':' in u + Line("event", kind)
  {
    var w := u + Line("event", kind);
    CutLine(key, w);
    assert key + ": " + u + Line("event", kind) == key + ": " + w;
    assert Line("event", kind)[5] == ':' && w[|u| + 5] == ':';
  }

  /** The tear leaves no more than a part of the field name. */
  lemma MeetEarly(q: string, kind: string)
    requires ':' !in q
    ensures Cut(q + Line("event", kind)) == Some((q + "event", kind))
  {
    CutLine(q + "event", kind);
    assert q + Line("event", kind) == (q + "event") + ": " + kind;
  }

  lemma MeetAtColon(key: string, kind: string)
    requires ':' !in key
    ensures Cut(key + ":" + Line("event", kind)) == Some((key + ":event", kind))
  {
    CutColon(key, kind);
    assert key + ":" + Line("event", kind) == key + ":event" + ": " + kind;
  }

  lemma EndsInEvent(x: string)
    ensures |x + "event"| >= 5 && (x + "event")[|x + "event"| - 5..] == "event"
  {
  }

  /** The line in which the tear and the next block's first line meet: either it still sets the torn line's
      field, or it sets a field nobody reads. */
  lemma MeetingLine(key: string, v: string, q: string, kind: string) returns (f: string, w: string)
    requires key != "" && ':' !in key && q != "" && q <= Line(key, v)
    ensures Cut(q + Line("event", kind)) == Some((f, w)) && f != ""
    ensures (f == key && ':' in w) || (|f| > 5 && f[|f| - 5..] == "event")
  {
    hide Cut;
    if |q| >= |key| + 2 {
      var u := q[|key| + 2..];
      assert q[..|key| + 2] == Line(key, v)[..|key| + 2] == key + ": ";
      assert q == key + ": " + u;
      f, w := key, u + Line("event", kind);
      MeetLate(key, u, kind);
    } else if |q| == |key| + 1 {
      assert q == Line(key, v)[..|key| + 1] == key + ":";
      f, w := key + ":event", kind;
      MeetAtColon(key, kind);
      EndsInEvent(key + ":");
      assert key + ":" + "event" == key + ":event";
    } else {
      assert q == Line(key, v)[..|q|] == key[..|q|];
      assert forall c :: c in q ==> c in key;
      f, w := q + "event", kind;
      MeetEarly(q, kind);
      EndsInEvent(q);
    }
  }

  /** The lines of a block: distinct fields, event and agent_id first, each with its event's value. */
  lemma FirstLines(ev: Event)
    requires CleanEvent(ev)
    ensures var ps := LinePairs(ev);
            && |ps| >= 2 && ps[0] == ("event", ev.kind) && ps[1] == ("agent_id", ev.agentId)
            && (forall i, j :: 0 <= i < j < |ps| ==> ps[i].0 != ps[j].0)
            && (forall i :: 0 <= i < |ps| ==> (ps[i].0, ps[i].1, true) in Candidates(ev))
  {
    CandidatesAreGood(ev);
    var cs := Candidates(ev);
    SelectOrder(cs);
    TwoFirst(cs);
    SelectPrefix(cs, 2);
    hide Select;
    assert LinePairs(ev)[..2][0] == LinePairs(ev)[0] && LinePairs(ev)[..2][1] == LinePairs(ev)[1];
  }

  lemma TwoFirst(cs: seq<(string, string, bool)>)
    requires |cs| >= 2 && cs[0].2 && cs[1].2
    ensures Select(cs[..2]) == [(cs[0].0, cs[0].1), (cs[1].0, cs[1].1)]
  {
    assert cs[..2][..1] == cs[..1] && cs[..1][..0] == [] && Select([]) == [];
  }

  lemma {:induction false} SelectPrefix(cs: seq<(string, string, bool)>, k: nat)
    requires k <= |cs|
    ensures |Select(cs[..k])| <= |Select(cs)| && Select(cs)[..|Select(cs[..k])|] == Select(cs[..k])
  {
    if k == |cs| {
      assert cs[..k] == cs;
    } else {
      assert cs[..|cs| - 1][..k] == cs[..k];
      SelectPrefix(cs[..|cs| - 1], k);
    }
  }

  lemma {:induction false} SelectOrder(cs: seq<(string, string, bool)>)
    requires forall i, j :: 0 <= i < j < |cs| ==> cs[i].0 != cs[j].0
    ensures forall i :: 0 <= i < |Select(cs)| ==> (Select(cs)[i].0, Select(cs)[i].1, true) in cs
    ensures forall i, j :: 0 <= i < j < |Select(cs)| ==> Select(cs)[i].0 != Select(cs)[j].0
  {
    if cs != [] {
      var init, last := cs[..|cs| - 1], cs[|cs| - 1];
      assert cs == init + [last] && last == (last.0, last.1, last.2);
      SelectOrder(init);
      forall i | 0 <= i < |Select(init)| ensures Select(init)[i].0 != last.0 {
        var c :| c in init && c == (Select(init)[i].0, Select(init)[i].1, true);
      }
    }
  }

  /** Distinct fields: the one at i reads its own value. */
  lemma FieldAt(pairs: seq<(string, string)>, base: map<string, string>, i: nat)
    requires i < |pairs| && forall i, j :: 0 <= i < j < |pairs| ==> pairs[i].0 != pairs[j].0
    ensures Get(Assign(pairs, base), pairs[i].0) == pairs[i].1
  {
    AssignLookup(pairs, base, i);
  }

  lemma FieldAbsent(pairs: seq<(string, string)>, base: map<string, string>, key: string)
    requires forall i :: 0 <= i < |pairs| ==> pairs[i].0 != key
    ensures Get(Assign(pairs, base), key) == Get(base, key)
  {
    AssignKeeps(pairs, base, key);
  }

  /** What the merged block of a tear inside a line holds. */
  lemma InsideFields(torn: Event, k: nat, q: string, ev: Event) returns (f: string, w: string)
    requires CleanEvent(torn) && CleanEvent(ev) && TornAt(torn, k, q) && q != "" && EventLines(ev) != []
    ensures var base := Assign(LinePairs(torn)[..k], map[]);
            FieldMap(MergedLines(torn, k, q, ev), map[]) == Some(Assign(LinePairs(ev)[1..], base[f := w]))
    ensures (f == LinePairs(torn)[k].0 && ':' in w) || (|f| > 5 && f[|f| - 5..] == "event")
  {
    TornLinesAreText(torn, k);
    CandidatesAreGood(ev);
    FirstLines(ev);
    var key, v := LinePairs(torn)[k].0, LinePairs(torn)[k].1;
    assert key != "" && ':' !in key;
    hide CleanEvent, FieldMap, LinePairs, Assign, Line, Cut;
    f, w := MeetingLine(key, v, q, ev.kind);
    var a, base := LinesOf(LinePairs(torn)[..k]), Assign(LinePairs(torn)[..k], map[]);
    var m, rest := q + Line("event", ev.kind), LinesOf(LinePairs(ev)[1..]);
    EventLinesParts(ev);
    assert MergedLines(torn, k, q, ev) == a + ([m] + rest);
    FieldMapConcat(a, [m] + rest, map[]);
    OneField(m, rest, base, f, w);
    GoodTail(LinePairs(ev));
    FieldMapLines(LinePairs(ev)[1..], base[f := w]);
  }

  lemma GoodTail(pairs: seq<(string, string)>)
    requires GoodPairs(pairs) && pairs != []
    ensures GoodPairs(pairs[1..])
  {
  }

  lemma OneField(m: string, rest: seq<string>, base: map<string, string>, f: string, w: string)
    requires Cut(m) == Some((f, w)) && f != ""
    ensures FieldMap([m] + rest, base) == FieldMap(rest, base[f := w])
  {
    hide Cut;
    assert ([m] + rest)[0] == m && ([m] + rest)[1..] == rest;
  }

  lemma EventLinesParts(ev: Event)
    requires LinePairs(ev) != [] && LinePairs(ev)[0] == ("event", ev.kind)
    ensures EventLines(ev) == [Line("event", ev.kind)] + LinesOf(LinePairs(ev)[1..])
  {
    hide Select, Candidates, Line;
    var ps := Select(Candidates(ev));
    assert LinesOf(ps)[1..] == LinesOf(ps[1..]);
  }

  /** A tear inside a line leaves the torn block's kind, if its first line is whole, and the next event's
      agent. */
  lemma InsideKind(torn: Event, k: nat, q: string, ev: Event) returns (g: map<string, string>)
    requires CleanEvent(torn) && CleanEvent(ev) && TornAt(torn, k, q) && q != "" && EventLines(ev) != []
    ensures FieldMap(MergedLines(torn, k, q, ev), map[]) == Some(g) && Get(g, "agent_id") == ev.agentId
    ensures if k == 0 then Get(g, "event") == "" || ':' in Get(g, "event") else Get(g, "event") == torn.kind
  {
    FirstLines(torn);
    FirstLines(ev);
    var f, w := InsideFields(torn, k, q, ev);
    var base := Assign(LinePairs(torn)[..k], map[]);
    hide CleanEvent, FieldMap, LinePairs, Assign, MergedLines, Candidates, TornAt;
    var rest := LinePairs(ev)[1..];
    g := Assign(rest, base[f := w]);
    assert rest[0] == LinePairs(ev)[1] && forall i :: 0 <= i < |rest| ==> rest[i] == LinePairs(ev)[i + 1];
    FieldAt(rest, base[f := w], 0);
    FieldAbsent(rest, base[f := w], "event");
    if k == 0 {
      assert LinePairs(torn)[..0] == [];
      NoFields(map[]);
      assert Get(base[f := w], "event") == if f == "event" then w else "";
    } else {
      var ps := LinePairs(torn)[..k];
      FieldAt(ps, map[], 0);
      assert f != "event";
      assert Get(base[f := w], "event") == Get(base, "event");
    }
  }

  /** A tear inside the first line loses the next event, although it is written whole. */
  lemma TornFirstLine(log: Bytes, torn: Event, q: string, ev: Event)
    requires Closed(log) && CleanEvent(torn) && CleanEvent(ev) && TornAt(torn, 0, q) && q != ""
    ensures AgentsOf(log + TornText(torn, 0, q) + Block(ev)) == AgentsOf(log)
  {
    AppendedToTorn(log, torn, 0, q, ev);
    var g := InsideKind(torn, 0, q, ev);
    hide CleanEvent, FieldMap, LinePairs, Closed, ParseLog, MergedLines, TornText, Block, TornAt, EventLines;
    assert ParseLog(log) + [] == ParseLog(log);
    if EventOf(g).Some? {
      var e, evs := EventOf(g).value, ParseLog(log);
      assert (evs + [e])[..|evs|] == evs;
      KindIsUnknown(Fold(evs), e);
    }
  }

  lemma KindIsUnknown(agents: Agents, e: Event)
    requires ':' in e.kind
    ensures ApplyEvent(agents, e) == agents
  {
    assert ':' !in "register" && ':' !in "unregister" && ':' !in "status" && ':' !in "heartbeat";
  }

  /** A tear inside a later line turns the next event into one of the torn block's kind. */
  lemma TornLaterLine(log: Bytes, torn: Event, k: nat, q: string, ev: Event) returns (e: Event)
    requires Closed(log) && CleanEvent(torn) && CleanEvent(ev) && TornAt(torn, k, q) && q != "" && k >= 1
    ensures AgentsOf(log + TornText(torn, k, q) + Block(ev)) == ApplyEvent(AgentsOf(log), e)
    ensures e.kind == torn.kind && e.agentId == ev.agentId
  {
    AppendedToTorn(log, torn, k, q, ev);
    var g := InsideKind(torn, k, q, ev);
    assert torn.kind != "" && ev.agentId != "";
    hide CleanEvent, FieldMap, LinePairs, Closed, ParseLog, MergedLines, TornText, Block, TornAt, EventLines, ApplyEvent;
    e := EventOf(g).value;
    var evs := ParseLog(log);
    assert (evs + [e])[..|evs|] == evs;
  }

  /** In particular an unregister behind a register torn after its first line leaves the agent alive. */
  lemma TearInverts(log: Bytes, torn: Event, k: nat, q: string, ev: Event)
    requires Closed(log) && CleanEvent(torn) && CleanEvent(ev) && TornAt(torn, k, q) && q != "" && k >= 1
    requires torn.kind == "register" && ev.kind == "unregister"
    ensures IsAlive(AgentsOf(log + TornText(torn, k, q) + Block(ev)), ev.agentId)
    ensures !IsAlive(ApplyEvent(AgentsOf(log), ev), ev.agentId)
  {
    hide AgentsOf, Block, TornText, CleanEvent, TornAt, Closed;
    var e := TornLaterLine(log, torn, k, q, ev);
  }

  const TORN_REGISTER: Event := Event("register", "a", "r", "", "", "", "", "")

  /** For example behind "event: register\nagent_id: a\nrole". */
  lemma TearInvertsExample(log: Bytes, ev: Event)
    requires Closed(log) && CleanEvent(ev) && ev.kind == "unregister"
    ensures IsAlive(AgentsOf(log + "event: register\nagent_id: a\nrole" + Block(ev)), ev.agentId)
  {
    var cs := Candidates(TORN_REGISTER);
    TwoFirst(cs);
    assert cs[..3][..2] == cs[..2];
    SelectPrefix(cs, 3);
    hide Select, AgentsOf, Closed, CleanEvent;
    assert LinePairs(TORN_REGISTER)[..3] == Select(cs[..3]) == [("event", "register"), ("agent_id", "a"), ("role", "r")] by { ThreeLines(cs); }
    var ps := LinePairs(TORN_REGISTER);
    assert ps[..2] == ps[..3][..2] == [("event", "register"), ("agent_id", "a")] && ps[2] == ps[..3][2] == ("role", "r");
    assert "role" <= Line("role", "r");
    TwoRendered();
    assert CleanEvent(TORN_REGISTER) by { assert OneLine("register") && OneLine("a") && OneLine("r"); }
    TearInverts(log, TORN_REGISTER, 2, "role", ev);
  }

  lemma ThreeLines(cs: seq<(string, string, bool)>)
    requires cs == Candidates(TORN_REGISTER)
    ensures Select(cs[..3]) == [("event", "register"), ("agent_id", "a"), ("role", "r")]
  {
    TwoFirst(cs);
    assert cs[..3][..2] == cs[..2];
  }

  lemma TwoRendered()
    ensures Render([("event", "register"), ("agent_id", "a")]) + "role" == "event: register\nagent_id: a\nrole"
  {
    var ps := [("event", "register"), ("agent_id", "a")];
    assert ps[1..] == [("agent_id", "a")] && ps[1..][1..] == [];
  }

  // ---- Exactly which tears the next event does not feel ----

  ghost predicate HasField(torn: Event, k: nat, key: string)
    requires k <= |LinePairs(torn)|
  {
    exists i :: 0 <= i < k && LinePairs(torn)[i].0 == key
  }

  /** Every event the caller may append next, with a time if the bus stamps its events, is applied as
      written, as if the torn block had never been begun. */
  ghost predicate NextApplies(log: Bytes, p: Bytes, stamped: bool) {
    forall ev :: CleanEvent(ev) && (stamped ==> ev.ts != "") ==>
      AgentsOf(log + p + Block(ev)) == ApplyEvent(AgentsOf(log), ev)
  }

  /** The torn bytes end at a line break and hold no line that the next block may omit: no model line,
      nor, if events may lack a time, a ts line. */
  ghost predicate SafeTail(p: Bytes, stamped: bool) {
    p == "" || (p[|p| - 1] == '\n' && forall l :: l in Split(p, '\n') ==> !("model: " <= l) && (stamped || !("ts: " <= l)))
  }

  lemma StartsIff(key: string, v: string, name: string)
    requires ':' !in key && ':' !in name
    ensures name + ": " <= Line(key, v) <==> key == name
  {
    if name + ": " <= Line(key, v) {
      var rest := Line(key, v)[|name| + 2..];
      assert Line(key, v) == name + ": " + rest;
      CutLine(name, rest);
      CutLine(key, v);
    }
  }

  lemma LineStarts(torn: Event, k: nat, name: string)
    requires CleanEvent(torn) && k <= |LinePairs(torn)| && ':' !in name
    ensures (exists l :: l in LinesOf(LinePairs(torn)[..k]) + [""] && name + ": " <= l) <==> HasField(torn, k, name)
  {
    TornLinesAreText(torn, k);
    var ps := LinePairs(torn);
    var ls := LinesOf(ps[..k]);
    forall i | 0 <= i < k ensures name + ": " <= ls[i] <==> ps[i].0 == name {
      StartsIff(ps[i].0, ps[i].1, name);
    }
    hide LinePairs, LinesOf, CleanEvent, FieldMap;
    if HasField(torn, k, name) {
      var i :| 0 <= i < k && ps[i].0 == name;
      assert ls[i] in ls + [""];
    }
  }

  lemma LastIsNewline(ls: seq<string>)
    requires ls != []
    ensures Unlines(ls) != "" && Unlines(ls)[|Unlines(ls)| - 1] == '\n'
  {
    UnlinesUnclosed(ls);
  }

  lemma InsideIsUnsafe(torn: Event, k: nat, q: string, stamped: bool)
    requires CleanEvent(torn) && TornAt(torn, k, q) && q != ""
    ensures !SafeTail(TornText(torn, k, q), stamped)
  {
    TornLinesAreText(torn, k);
    LineFacts(LinePairs(torn)[k].0, LinePairs(torn)[k].1);
    PartIsOneLine(q, Line(LinePairs(torn)[k].0, LinePairs(torn)[k].1));
    hide LinePairs, CleanEvent, FieldMap, Render, Line, Split;
    var p := TornText(torn, k, q);
    assert p[|p| - 1] == q[|q| - 1] && q[|q| - 1] in q;
  }

  lemma SafeIff(torn: Event, k: nat, q: string, stamped: bool)
    requires CleanEvent(torn) && TornAt(torn, k, q)
    ensures SafeTail(TornText(torn, k, q), stamped)
            <==> q == "" && !HasField(torn, k, "model") && (stamped || !HasField(torn, k, "ts"))
  {
    if q != "" {
      InsideIsUnsafe(torn, k, q, stamped);
    } else {
      TornLinesAreText(torn, k);
      var ls := LinesOf(LinePairs(torn)[..k]);
      LineStarts(torn, k, "model");
      LineStarts(torn, k, "ts");
      hide CleanEvent, FieldMap, Split, LinesOf, TornAt;
      assert TornText(torn, k, q) == Unlines(ls);
      hide TornText, Render;
      SplitUnlines(ls);
      if k > 0 {
        LastIsNewline(ls);
      }
      hide Unlines, LinePairs;
      assert "model" + ": " == "model: " && "ts" + ": " == "ts: ";
    }
  }

  /** What a torn block can leave behind. */
  lemma StaleFacts(torn: Event, k: nat)
    requires CleanEvent(torn) && k <= |LinePairs(torn)|
    ensures HasField(torn, k, "model") ==> StaleModel(torn, k) == torn.model != ""
    ensures !HasField(torn, k, "model") ==> StaleModel(torn, k) == ""
    ensures HasField(torn, k, "ts") ==> StaleTime(torn, k) == torn.ts != ""
    ensures !HasField(torn, k, "ts") ==> StaleTime(torn, k) == ""
  {
    FirstLines(torn);
    NothingThere();
    var ps := LinePairs(torn)[..k];
    if HasField(torn, k, "model") {
      var i :| 0 <= i < k && LinePairs(torn)[i].0 == "model";
      FieldAt(ps, map[], i);
      CandidateValue(torn, LinePairs(torn)[i].0, LinePairs(torn)[i].1);
    } else {
      hide Assign;
      FieldAbsent(ps, map[], "model");
    }
    if HasField(torn, k, "ts") {
      var i :| 0 <= i < k && LinePairs(torn)[i].0 == "ts";
      FieldAt(ps, map[], i);
      CandidateValue(torn, LinePairs(torn)[i].0, LinePairs(torn)[i].1);
    } else {
      hide Assign;
      FieldAbsent(ps, map[], "ts");
    }
  }

  lemma CandidateValue(ev: Event, key: string, v: string)
    requires (key, v, true) in Candidates(ev) && (key == "model" || key == "ts")
    ensures key == "model" ==> v == ev.model != ""
    ensures key == "ts" ==> v == ev.ts != ""
  {
  }

  // ---- Witnesses ----

  const STAMP: string := "2000-01-01T00:00:00Z"

  /** A registration that changes the registry, with a role the agent does not have. */
  function Newcomer(agents: Agents): Event {
    Event("register", "a", if "a" in agents && agents["a"].role == "x" then "y" else "x", "", "", "", "", STAMP)
  }

  function Leaver(): Event {
    Event("unregister", "a", "", "", "", "", "", STAMP)
  }

  lemma WitnessesAreClean(agents: Agents)
    ensures CleanEvent(Newcomer(agents)) && CleanEvent(Newcomer(agents).(ts := "")) && CleanEvent(Leaver())
  {
    assert OneLine("register") && OneLine("unregister") && OneLine("a") && OneLine("x") && OneLine("y") && OneLine("");
  }

  lemma NewcomerMatters(agents: Agents)
    ensures ApplyEvent(agents, Newcomer(agents)) != agents
    ensures forall e: Event :: e.agentId == "a" && e.kind != "register" ==>
              ApplyEvent(agents, e) != ApplyEvent(agents, Newcomer(agents))
    ensures forall e: Event :: e.agentId == "a" && e.kind == "register" ==>
              ApplyEvent(agents, e) != ApplyEvent(agents, Leaver())
    ensures forall m: string, t: string :: m != "" ==>
              ApplyEvent(agents, WithStale(Newcomer(agents), m, t)) != ApplyEvent(agents, Newcomer(agents))
    ensures forall m: string, t: string :: t != "" ==>
              ApplyEvent(agents, WithStale(Newcomer(agents).(ts := ""), m, t)) != ApplyEvent(agents, Newcomer(agents).(ts := ""))
  {
    var n := Newcomer(agents);
    var after := ApplyEvent(agents, n);
    assert "a" in after && after["a"].role == n.role && after["a"].membership == "alive" && after["a"].model == "";
    forall e: Event | e.agentId == "a" && e.kind != "register" ensures ApplyEvent(agents, e) != after {
      var other := ApplyEvent(agents, e);
      if "a" in other {
        assert other["a"].membership == "removed" || ("a" in agents && other["a"].role == agents["a"].role);
      }
    }
    forall e: Event | e.agentId == "a" && e.kind == "register" ensures ApplyEvent(agents, e) != ApplyEvent(agents, Leaver()) {
      assert ApplyEvent(agents, e)["a"].membership == "alive" && ApplyEvent(agents, Leaver())["a"].membership == "removed";
    }
    forall m: string, t: string | m != "" ensures ApplyEvent(agents, WithStale(n, m, t)) != after {
      assert ApplyEvent(agents, WithStale(n, m, t))["a"].model == m;
    }
    forall m: string, t: string | t != ""
      ensures ApplyEvent(agents, WithStale(n.(ts := ""), m, t)) != ApplyEvent(agents, n.(ts := ""))
    {
      assert ApplyEvent(agents, WithStale(n.(ts := ""), m, t))["a"].registeredAt == t;
      assert ApplyEvent(agents, n.(ts := ""))["a"].registeredAt == "";
    }
  }

  lemma SafeApplies(log: Bytes, torn: Event, k: nat, stamped: bool)
    requires Closed(log) && CleanEvent(torn) && k <= |LinePairs(torn)|
    requires !HasField(torn, k, "model") && (stamped || !HasField(torn, k, "ts"))
    ensures NextApplies(log, TornText(torn, k, ""), stamped)
  {
    hide Closed, CleanEvent, LinePairs, TornText, Block, AgentsOf, ApplyEvent, HasField, StaleModel, StaleTime;
    StaleFacts(torn, k);
    forall ev | CleanEvent(ev) && (stamped ==> ev.ts != "")
      ensures AgentsOf(log + TornText(torn, k, "") + Block(ev)) == ApplyEvent(AgentsOf(log), ev)
    {
      TornAtBreak(log, torn, k, ev);
      assert WithStale(ev, StaleModel(torn, k), StaleTime(torn, k)) == ev;
    }
  }

  lemma StaleMatters(log: Bytes, torn: Event, k: nat, stamped: bool)
    requires Closed(log) && CleanEvent(torn) && k <= |LinePairs(torn)|
    requires HasField(torn, k, "model") || (!stamped && HasField(torn, k, "ts"))
    ensures !NextApplies(log, TornText(torn, k, ""), stamped)
  {
    var agents := AgentsOf(log);
    hide Closed, CleanEvent, LinePairs, TornText, Block, AgentsOf, ApplyEvent, HasField, StaleModel, StaleTime, WithStale;
    StaleFacts(torn, k);
    WitnessesAreClean(agents);
    NewcomerMatters(agents);
    var ev := if HasField(torn, k, "model") then Newcomer(agents) else Newcomer(agents).(ts := "");
    TornAtBreak(log, torn, k, ev);
  }

  lemma InsideMatters(log: Bytes, torn: Event, k: nat, q: string, stamped: bool)
    requires Closed(log) && CleanEvent(torn) && TornAt(torn, k, q) && q != ""
    ensures !NextApplies(log, TornText(torn, k, q), stamped)
  {
    var agents := AgentsOf(log);
    hide Closed, CleanEvent, LinePairs, TornText, Block, AgentsOf, ApplyEvent, WithStale, TornAt;
    WitnessesAreClean(agents);
    NewcomerMatters(agents);
    if k == 0 {
      TornFirstLine(log, torn, q, Newcomer(agents));
    } else if torn.kind == "register" {
      var e := TornLaterLine(log, torn, k, q, Leaver());
    } else {
      var e := TornLaterLine(log, torn, k, q, Newcomer(agents));
    }
  }

  /** For every tear of every block: the next event is applied as written, whatever it is, exactly when the
      torn bytes are none, or end at a line break and hold no line the next block may omit. */
  lemma NextEventAppliesExactly(log: Bytes, torn: Event, p: Bytes, stamped: bool)
    requires Closed(log) && CleanEvent(torn) && StrictPrefix(p, Block(torn))
    ensures NextApplies(log, p, stamped) <==> SafeTail(p, stamped)
  {
    var k, q := TearOf(torn, p);
    hide Closed, CleanEvent, Block, LinePairs, TornText, NextApplies, SafeTail, HasField;
    SafeIff(torn, k, q, stamped);
    if q != "" {
      InsideMatters(log, torn, k, q, stamped);
    } else if !HasField(torn, k, "model") && (stamped || !HasField(torn, k, "ts")) {
      SafeApplies(log, torn, k, stamped);
    } else {
      StaleMatters(log, torn, k, stamped);
    }
  }
}
