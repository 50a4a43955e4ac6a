/** The registry event log of internal/bus/registry.go: blocks of header lines closed by a blank
    line, their parser, and the fold to the latest state per agent. */
module RegistryLog {
  import opened Text
  import opened Codec
  import opened Sorting

  /** ts is "" for the zero time; unknown kinds are parsed and ignored by the fold. */
  datatype Event = Event(
    kind: string,
    agentId: string,
    role: string,
    description: string,
    workingDir: string,
    model: string,
    status: string,
    ts: string)

  datatype Agent = Agent(
    agentId: string,
    role: string,
    description: string,
    workingDir: string,
    model: string,
    status: string,
    membership: string,
    registeredAt: string,
    unregisteredAt: Option<string>,
    lastSeen: string)

  type Agents = map<string, Agent>

  // ---- Parsing ----

  /** Position of the first blank line ("\n\n"), or |s|. */
  function FindBlank(s: Bytes): (i: nat)
    ensures i <= |s|
    ensures i < |s| ==> i + 2 <= |s|
  {
    if |s| < 2 then |s| else if s[0] == '\n' && s[1] == '\n' then 0 else 1 + FindBlank(s[1..])
  }

  /** strings.Split(s, "\n\n"). */
  function SplitBlocks(s: Bytes): (bs: seq<Bytes>)
    ensures |bs| >= 1
    decreases |s|
  {
    var i := FindBlank(s);
    if i == |s| then [s] else [s[..i]] + SplitBlocks(s[i + 2..])
  }

  function TrimNewlines(s: Bytes): Bytes {
    if s != "" && s[|s| - 1] == '\n' then TrimNewlines(s[..|s| - 1]) else s
  }

  function Get(fields: map<string, string>, k: string): string {
    if k in fields then fields[k] else ""
  }

  function ParseTime(s: string): string {
    if IsTimestamp(s) then s else ""
  }

  /** The event a block's fields denote; None without a kind or an agent. */
  function EventOf(f: map<string, string>): Option<Event> {
    if Get(f, "event") == "" || Get(f, "agent_id") == "" then None
    else Some(Event(Get(f, "event"), Get(f, "agent_id"), Get(f, "role"), Get(f, "description"),
                    Get(f, "working_dir"), Get(f, "model"), Get(f, "status"), ParseTime(Get(f, "ts"))))
  }

  /** The event of one block; None for an empty, partial or corrupt block, which is dropped. */
  function ParseBlock(block: Bytes): Option<Event> {
    var b := TrimNewlines(block);
    if b == "" then None
    else
      match FieldMap(Split(b, '\n'), map[])
      case None => None
      case Some(f) => EventOf(f)
  }

  function ParseBlocks(bs: seq<Bytes>): seq<Event> {
    if bs == [] then []
    else
      match ParseBlock(bs[0])
      case None => ParseBlocks(bs[1..])
      case Some(ev) => [ev] + ParseBlocks(bs[1..])
  }

  /** parseRegistryLog. */
  function ParseLog(log: Bytes): seq<Event> {
    ParseBlocks(SplitBlocks(log))
  }

  method ReadBlockFields(lines: seq<string>) returns (fields: Option<map<string, string>>)
    ensures fields == FieldMap(lines, map[])
  {
    var acc: map<string, string> := map[];
    for i := 0 to |lines|
      invariant FieldMap(lines, map[]) == FieldMap(lines[i..], acc)
    {
      var kv := Cut(lines[i]);
      if kv.None? || kv.value.0 == "" {
        return None;
      }
      acc := acc[kv.value.0 := kv.value.1];
    }
    fields := Some(acc);
  }

  lemma {:induction false} ParseBlocksSnoc(bs: seq<Bytes>, b: Bytes)
    ensures ParseBlocks(bs + [b])
            == ParseBlocks(bs) + match ParseBlock(b) case None => [] case Some(ev) => [ev]
  {
    hide ParseBlock;
    if bs == [] {
      assert (bs + [b])[1..] == [];
    } else {
      assert (bs + [b])[1..] == bs[1..] + [b];
      ParseBlocksSnoc(bs[1..], b);
    }
  }

  /** The loop of parseRegistryLog. */
  method ReadEvents(log: Bytes) returns (events: seq<Event>)
    ensures events == ParseLog(log)
  {
    hide FieldMap, Split, TrimNewlines, IsTimestamp;
    var blocks := SplitBlocks(log);
    events := [];
    for i := 0 to |blocks|
      invariant events == ParseBlocks(blocks[..i])
    {
      assert blocks[..i + 1] == blocks[..i] + [blocks[i]];
      ParseBlocksSnoc(blocks[..i], blocks[i]);
      var block := TrimNewlines(blocks[i]);
      if block == "" {
        continue;
      }
      var f := ReadBlockFields(Split(block, '\n'));
      if f.None? || Get(f.value, "event") == "" || Get(f.value, "agent_id") == "" {
        continue;
      }
      var fs := f.value;
      var ts := if IsTimestamp(Get(fs, "ts")) then Get(fs, "ts") else "";
      events := events + [Event(Get(fs, "event"), Get(fs, "agent_id"), Get(fs, "role"), Get(fs, "description"),
                                Get(fs, "working_dir"), Get(fs, "model"), Get(fs, "status"), ts)];
    }
    assert blocks[..|blocks|] == blocks;
  }

  // ---- Writing ----

  /** The lines appendRegistryEventLocked may write, in order, each with whether it is written. */
  function Candidates(ev: Event): seq<(string, string, bool)> {
    [("event", ev.kind, true), ("agent_id", ev.agentId, true), ("role", ev.role, ev.kind == "register"),
     ("description", ev.description, ev.kind == "register"), ("working_dir", ev.workingDir, ev.kind == "register"),
     ("model", ev.model, ev.kind == "register" && ev.model != ""), ("status", ev.status, ev.kind == "status"),
     ("ts", ev.ts, ev.ts != "")]
  }

  function Select(cs: seq<(string, string, bool)>): seq<(string, string)> {
    if cs == [] then []
    else Select(cs[..|cs| - 1]) + if cs[|cs| - 1].2 then [(cs[|cs| - 1].0, cs[|cs| - 1].1)] else []
  }

  function Block(ev: Event): Bytes {
    Render(Select(Candidates(ev))) + "\n"
  }

  /** The event without the fields its kind does not carry. */
  function Carried(ev: Event): Event {
    var r := ev.kind == "register";
    Event(ev.kind, ev.agentId, if r then ev.role else "", if r then ev.description else "",
          if r then ev.workingDir else "", if r then ev.model else "",
          if ev.kind == "status" then ev.status else "", ev.ts)
  }

  ghost predicate CleanEvent(ev: Event) {
    && OneLine(ev.kind) && OneLine(ev.agentId) && OneLine(ev.role) && OneLine(ev.description) && OneLine(ev.workingDir)
    && OneLine(ev.model) && OneLine(ev.status) && ev.kind != "" && ev.agentId != "" && (ev.ts == "" || IsTimestamp(ev.ts))
  }

  // ---- Folding ----

  function ApplyEvent(agents: Agents, ev: Event): Agents {
    var id := ev.agentId;
    if ev.kind == "register" then
      agents[id := Agent(id, ev.role, ev.description, ev.workingDir, ev.model, "idle", "alive", ev.ts, None, ev.ts)]
    else if ev.kind == "unregister" then
      agents[id := Agent(id, "", "", "", "", "", "removed", if id in agents then agents[id].registeredAt else "",
                         Some(ev.ts), "")]
    else if ev.kind == "status" && id in agents && agents[id].membership == "alive" then
      agents[id := agents[id].(status := ev.status)]
    else if ev.kind == "heartbeat" && id in agents && agents[id].membership == "alive" then
      agents[id := agents[id].(lastSeen := ev.ts)]
    else agents
  }

  function Fold(events: seq<Event>): Agents {
    if events == [] then map[] else ApplyEvent(Fold(events[..|events| - 1]), events[|events| - 1])
  }

  /** foldRegistry. */
  method FoldRegistry(events: seq<Event>) returns (out: Agents)
    ensures out == Fold(events)
  {
    out := map[];
    for i := 0 to |events|
      invariant out == Fold(events[..i])
    {
      var ev := events[i];
      assert events[..i + 1][..i] == events[..i];
      if ev.kind == "register" {
        out := out[ev.agentId := Agent(ev.agentId, ev.role, ev.description, ev.workingDir, ev.model, "idle", "alive",
                                       ev.ts, None, ev.ts)];
      } else if ev.kind == "unregister" {
        var removed := Agent(ev.agentId, "", "", "", "", "", "removed", "", Some(ev.ts), "");
        if ev.agentId in out {
          removed := removed.(registeredAt := out[ev.agentId].registeredAt);
        }
        out := out[ev.agentId := removed];
      } else if ev.kind == "status" {
        if ev.agentId in out && out[ev.agentId].membership == "alive" {
          out := out[ev.agentId := out[ev.agentId].(status := ev.status)];
        }
      } else if ev.kind == "heartbeat" {
        if ev.agentId in out && out[ev.agentId].membership == "alive" {
          out := out[ev.agentId := out[ev.agentId].(lastSeen := ev.ts)];
        }
      }
    }
    assert events[..|events|] == events;
  }

  predicate IsAlive(agents: Agents, id: string) {
    id in agents && agents[id].membership == "alive"
  }

  /** readRegistryLog. */
  function AgentsOf(log: Bytes): Agents {
    Fold(ParseLog(log))
  }

  // ---- What the fold means ----

  predicate IsMembership(ev: Event, id: string) {
    ev.agentId == id && (ev.kind == "register" || ev.kind == "unregister")
  }

  /** The last register or unregister event of the agent. */
  function LastMembership(events: seq<Event>, id: string): Option<Event> {
    if events == [] then None
    else if IsMembership(events[|events| - 1], id) then Some(events[|events| - 1])
    else LastMembership(events[..|events| - 1], id)
  }

  /** An agent is alive exactly when its last membership event is a register, under the role that
      event gave; it is known at all exactly when it has a membership event. */
  lemma {:induction false} AliveIffLastRegistered(events: seq<Event>, id: string)
    ensures id in Fold(events) <==> LastMembership(events, id).Some?
    ensures IsAlive(Fold(events), id) <==>
              LastMembership(events, id).Some? && LastMembership(events, id).value.kind == "register"
    ensures IsAlive(Fold(events), id) ==>
              var ev := LastMembership(events, id).value;
              var a := Fold(events)[id];
              a.role == ev.role && a.registeredAt == ev.ts && a.agentId == id
    ensures id in Fold(events) ==> Fold(events)[id].agentId == id
  {
    if events != [] {
      AliveIffLastRegistered(events[..|events| - 1], id);
    }
  }

  /** Status and heartbeat events, and events of unknown kind, change nobody's membership or role. */
  lemma OtherEventsKeepMembership(agents: Agents, ev: Event, id: string)
    requires !IsMembership(ev, id)
    ensures IsAlive(ApplyEvent(agents, ev), id) <==> IsAlive(agents, id)
    ensures id in agents <==> id in ApplyEvent(agents, ev)
    ensures id in agents ==> ApplyEvent(agents, ev)[id].role == agents[id].role
    ensures id in agents && id != ev.agentId ==> ApplyEvent(agents, ev)[id] == agents[id]
  {
  }

  /** A status or heartbeat of an agent that is not alive, and any event of an unknown kind, changes nothing; no
      event changes another agent; and what a status or heartbeat of an alive agent does change is one field. */
  lemma EventsStayInTheirPlace(agents: Agents, ev: Event)
    ensures ev.kind != "register" && ev.kind != "unregister"
            && (!IsAlive(agents, ev.agentId) || (ev.kind != "status" && ev.kind != "heartbeat")) ==>
              ApplyEvent(agents, ev) == agents
    ensures ApplyEvent(agents, ev) - {ev.agentId} == agents - {ev.agentId}
    ensures IsAlive(agents, ev.agentId) && ev.kind == "status" ==>
              ApplyEvent(agents, ev)[ev.agentId] == agents[ev.agentId].(status := ev.status)
    ensures IsAlive(agents, ev.agentId) && ev.kind == "heartbeat" ==>
              ApplyEvent(agents, ev)[ev.agentId] == agents[ev.agentId].(lastSeen := ev.ts)
  {
    var next := ApplyEvent(agents, ev);
    assert forall id :: id != ev.agentId ==> (id in next <==> id in agents);
    assert forall id :: id != ev.agentId && id in agents ==> next[id] == agents[id];
  }

  // ---- Role expansion ----

  /** Exactly the alive agents of the role, sorted, each once. */
  ghost predicate IsExpansion(agents: Agents, role: string, rs: seq<string>) {
    && StrictlySorted(rs)
    && forall id :: id in rs <==> IsAlive(agents, id) && agents[id].role == role
  }

  lemma ExpansionIsUnique(agents: Agents, role: string, xs: seq<string>, ys: seq<string>)
    requires IsExpansion(agents, role, xs) && IsExpansion(agents, role, ys)
    ensures xs == ys
  {
    hide StrLe;
    StrictlySortedUnique(xs, ys);
  }

  function Itself(s: string): string {
    s
  }

  /** The expansion loop of sendLocked: the agents are visited in map order, then sorted. */
  method ExpandRole(agents: Agents, role: string) returns (recipients: seq<string>)
    ensures IsExpansion(agents, role, recipients)
  {
    hide StrLe;
    var left := agents.Keys;
    var found: seq<string> := [];
    while left != {}
      invariant left <= agents.Keys
      invariant forall id :: id in found <==> IsAlive(agents, id) && agents[id].role == role && id !in left
      invariant forall i, j :: 0 <= i < j < |found| ==> found[i] != found[j]
      decreases left
    {
      var id :| id in left;
      if agents[id].membership == "alive" && agents[id].role == role {
        found := found + [id];
      }
      left := left - {id};
    }
    recipients := SortBy(found, Itself);
    SortedOnce(found, recipients);
  }

  lemma SortedOnce(xs: seq<string>, ys: seq<string>)
    requires SortedBy(ys, Itself) && multiset(ys) == multiset(xs)
    requires forall i, j :: 0 <= i < j < |xs| ==> xs[i] != xs[j]
    ensures StrictlySorted(ys) && forall s :: s in ys <==> s in xs
  {
    hide StrLe;
    SamePermutation(xs, ys);
    DistinctPermutation(xs, ys);
    forall i, j | 0 <= i < j < |ys| ensures ys[i] != ys[j] && StrLe(ys[i], ys[j]) {
      assert StrLe(Itself(ys[i]), Itself(ys[j]));
    }
  }
}
