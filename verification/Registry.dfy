/** The agent registry (internal/bus/registry.go): the append-only event log is the truth, the
    snapshot directory is derived from it. Every mutation appends one event and adjusts one
    snapshot; the methods are proved to keep the directory equal to the alive part of the fold. */
module Registry {
  import opened Text
  import opened Codec
  import opened RegistryLog
  import opened RegistryLaws

  /** NilAgent is no error return: the process dies of a nil agent. */
  datatype BusError =
    | InvalidArgument
    | AgentNotRegistered(agent: string)
    | AgentRemoved(agent: string)
    | RecipientUnknown(recipient: string)
    | InReplyToNotFound(id: int)
    | NoSuchMailbox(agent: string)
    | CorruptLog(cause: ParseError)
    | NilAgent(agent: string)

  datatype Result<+T> = Ok(value: T) | Err(error: BusError)

  // ---- Arguments ----

  predicate IsAlnum(c: char) {
    'A' <= c <= 'Z' || 'a' <= c <= 'z' || '0' <= c <= '9'
  }

  /** ^[A-Za-z0-9][A-Za-z0-9._-]{0,63}$ */
  predicate ValidAgentId(id: string) {
    && 1 <= |id| <= 64
    && IsAlnum(id[0])
    && forall i :: 0 <= i < |id| ==> IsAlnum(id[i]) || id[i] == '.' || id[i] == '_' || id[i] == '-'
  }

  /** By character codes: letters, digits, and anywhere but at the front also dash, dot and underscore. */
  predicate IdCode(n: int, front: bool) {
    48 <= n <= 57 || 65 <= n <= 90 || 97 <= n <= 122 || (!front && (n == 45 || n == 46 || n == 95))
  }

  /** Which ids there are, grown character by character: one letter or digit, and any id of fewer than 64
      characters with one more letter, digit, dash, dot or underscore. */
  lemma ValidIdGrows(id: string, c: char)
    ensures !ValidAgentId("")
    ensures ValidAgentId(id + [c]) <==>
              if id == "" then IdCode(c as int, true) else ValidAgentId(id) && |id| < 64 && IdCode(c as int, false)
  {
    var next := id + [c];
    assert next[|id|] == c && forall i :: 0 <= i < |id| ==> next[i] == id[i];
    assert 'A' as int == 65 && 'Z' as int == 90 && 'a' as int == 97 && 'z' as int == 122;
    assert '0' as int == 48 && '9' as int == 57 && '-' as int == 45 && '.' as int == 46 && '_' as int == 95;
  }

  /** No id can leave its directory or break a header line. */
  lemma ValidIdIsAFileName(id: string)
    requires ValidAgentId(id)
    ensures '/' !in id && '\\' !in id && '\n' !in id && '\r' !in id && ':' !in id && ' ' !in id && id[0] != '.' && |id| <= 64
  {
  }

  /** sanitizeHeader: line breaks become spaces, everything else is kept in place. */
  function Sanitize(v: string): (s: string)
    ensures OneLine(s) && '\r' !in s
    ensures |s| == |v|
    ensures forall i :: 0 <= i < |v| ==> s[i] == if v[i] == '\n' || v[i] == '\r' then ' ' else v[i]
    ensures OneLine(v) && '\r' !in v ==> s == v
  {
    if v == "" then ""
    else
      var tail := Sanitize(v[1..]);
      assert v == [v[0]] + v[1..];
      [if v[0] == '\n' || v[0] == '\r' then ' ' else v[0]] + tail
  }

  // ---- The snapshot directory ----

  /** What the snapshot directory should hold: one file per alive agent. */
  function AliveOnly(agents: Agents): Agents {
    map id | id in agents && agents[id].membership == "alive" :: agents[id]
  }

  /** How one event changes the projection: a register writes a snapshot, an unregister drops one,
      a status or heartbeat of an alive agent rewrites its own, and nothing else matters. */
  lemma ProjectionStep(agents: Agents, ev: Event)
    ensures var next := AliveOnly(ApplyEvent(agents, ev));
            if ev.kind == "unregister" then next == AliveOnly(agents) - {ev.agentId}
            else if ev.kind == "register" || (ev.kind in ["status", "heartbeat"] && IsAlive(agents, ev.agentId)) then
              next == AliveOnly(agents)[ev.agentId := ApplyEvent(agents, ev)[ev.agentId]]
            else next == AliveOnly(agents)
  {
  }

  // ---- Building a block line by line ----

  /** A candidate line that is not written adds nothing. */
  lemma SkipLines(cs: seq<(string, string, bool)>, k: nat, n: nat)
    requires k <= n <= |cs| && forall i :: k <= i < n ==> !cs[i].2
    ensures Select(cs[..n]) == Select(cs[..k])
    decreases n - k
  {
    if k < n {
      assert cs[..n][..n - 1] == cs[..n - 1];
      SkipLines(cs, k, n - 1);
    }
  }

  method WriteField(sb: Bytes, ghost cs: seq<(string, string, bool)>, ghost k: nat, key: string, v: string)
    returns (out: Bytes)
    requires k < |cs| && cs[k] == (key, v, true) && sb == Render(Select(cs[..k]))
    ensures out == Render(Select(cs[..k + 1]))
  {
    hide Render;
    assert cs[..k + 1][..k] == cs[..k];
    RenderAppend(Select(cs[..k]), key, v);
    out := sb + key + ": " + v + "\n";
    assert out == sb + Line(key, v) + "\n";
  }

  lemma CandidateList(ev: Event)
    ensures var cs := Candidates(ev);
            && |cs| == 8 && cs[..8] == cs && Render(Select(cs[..0])) == ""
            && (forall k :: 0 <= k < 2 ==> cs[k].2)
            && (forall k :: 2 <= k < 5 ==> (cs[k].2 <==> ev.kind == "register"))
            && (cs[5].2 <==> ev.kind == "register" && ev.model != "")
            && (cs[6].2 <==> ev.kind == "status") && (cs[7].2 <==> ev.ts != "")
    ensures var cs := Candidates(ev);
            && cs[0].0 == "event" && cs[1].0 == "agent_id" && cs[2].0 == "role" && cs[3].0 == "description"
            && cs[4].0 == "working_dir" && cs[5].0 == "model" && cs[6].0 == "status" && cs[7].0 == "ts"
            && cs[0].1 == ev.kind && cs[1].1 == ev.agentId && cs[2].1 == ev.role && cs[3].1 == ev.description
            && cs[4].1 == ev.workingDir && cs[5].1 == ev.model && cs[6].1 == ev.status && cs[7].1 == ev.ts
  {
    RenderNothing();
    hide Render;
  }

  method BuildBlock(ev: Event) returns (sb: Bytes)
    ensures sb == Block(ev)
  {
    ghost var cs := Candidates(ev);
    hide Render, Select, Candidates;
    CandidateList(ev);
    sb := "";
    sb := WriteField(sb, cs, 0, "event", ev.kind);
    sb := WriteField(sb, cs, 1, "agent_id", ev.agentId);
    if ev.kind == "register" {
      sb := WriteField(sb, cs, 2, "role", ev.role);
      sb := WriteField(sb, cs, 3, "description", ev.description);
      sb := WriteField(sb, cs, 4, "working_dir", ev.workingDir);
      if ev.model != "" {
        sb := WriteField(sb, cs, 5, "model", ev.model);
      } else {
        SkipLines(cs, 5, 6);
      }
    } else {
      SkipLines(cs, 2, 6);
    }
    if ev.kind == "status" {
      sb := WriteField(sb, cs, 6, "status", ev.status);
    } else {
      SkipLines(cs, 6, 7);
    }
    if ev.ts != "" {
      sb := WriteField(sb, cs, 7, "ts", ev.ts);
    } else {
      SkipLines(cs, 7, 8);
    }
    sb := sb + "\n";
  }

  /** An event's text fields default to "". */
  function Plain(kind: string, agentId: string, ts: string): Event {
    Event(kind, agentId, "", "", "", "", "", ts)
  }

  /** Once the agent's own file is rewritten as the registry has it, the directory is coherent again. */
  lemma CoherenceRestored(agents: Agents, ev: Event, before: Agents, after: Agents)
    requires before - {ev.agentId} == AliveOnly(agents) - {ev.agentId}
    requires ev.kind == "unregister" ==> after == before - {ev.agentId}
    requires ev.kind != "unregister" ==>
               && IsAlive(ApplyEvent(agents, ev), ev.agentId)
               && after == before[ev.agentId := ApplyEvent(agents, ev)[ev.agentId]]
    ensures after == AliveOnly(ApplyEvent(agents, ev))
  {
    var id := ev.agentId;
    var now := AliveOnly(ApplyEvent(agents, ev));
    assert after - {id} == before - {id};
    assert now - {id} == AliveOnly(agents) - {id};
    assert id in after <==> id in now;
    assert forall i :: i in after <==> (i == id && id in after) || i in after - {id};
    assert forall i :: i in now <==> (i == id && id in now) || i in now - {id};
  }

  lemma RegisterApplies(agents: Agents, a: Agent)
    requires a.status == "idle" && a.membership == "alive" && a.unregisteredAt == None && a.lastSeen == a.registeredAt
    ensures ApplyEvent(agents, RegisterEvent(a)) == agents[a.agentId := a]
  {
  }

  lemma ApplyOthers(agents: Agents, id: string, v: string, now: string)
    ensures IsAlive(agents, id) ==>
              && ApplyEvent(agents, StatusEvent(id, v, now)) == agents[id := agents[id].(status := Sanitize(v))]
              && ApplyEvent(agents, Plain("heartbeat", id, now)) == agents[id := agents[id].(lastSeen := now)]
    ensures ApplyEvent(agents, Plain("unregister", id, now))
            == agents[id := Agent(id, "", "", "", "", "", "removed",
                 if id in agents then agents[id].registeredAt else "", Some(now), "")]
  {
  }

  function RegisterEvent(a: Agent): Event {
    Event("register", a.agentId, a.role, a.description, a.workingDir, a.model, "", a.registeredAt)
  }

  function StatusEvent(agentId: string, status: string, now: string): Event {
    Plain("status", agentId, now).(status := Sanitize(status))
  }

  class Registry {
    var log: Bytes
    var snapshots: Agents

    ghost predicate Valid()
      reads this
    {
      Closed(log)
    }

    function Agents(): Agents
      reads this
    {
      AgentsOf(log)
    }

    /** The snapshot directory is a faithful projection of the log. */
    ghost predicate Coherent()
      reads this
    {
      snapshots == AliveOnly(AgentsOf(log))
    }

    /** The same but for one agent's file. */
    ghost predicate CoherentBut(id: string)
      reads this
    {
      snapshots - {id} == AliveOnly(AgentsOf(log)) - {id}
    }

    /** An empty root. */
    constructor ()
      ensures Valid() && Coherent() && Agents() == map[]
    {
      log := "";
      snapshots := map[];
      new;
      EmptyLog();
    }

    method ReadRegistryLog() returns (agents: Agents)
      ensures agents == Agents()
    {
      var events := ReadEvents(log);
      agents := FoldRegistry(events);
    }

    /** requireAgentLocked. */
    method RequireAgent(agentId: string) returns (r: Result<Agent>)
      ensures IsAlive(Agents(), agentId) ==> r == Ok(Agents()[agentId])
      ensures agentId !in Agents() ==> r == Err(AgentNotRegistered(agentId))
      ensures agentId in Agents() && !IsAlive(Agents(), agentId) ==> r == Err(AgentRemoved(agentId))
    {
      hide AgentsOf;
      var agents := ReadRegistryLog();
      if agentId !in agents {
        return Err(AgentNotRegistered(agentId));
      }
      if agents[agentId].membership != "alive" {
        return Err(AgentRemoved(agentId));
      }
      r := Ok(agents[agentId]);
    }

    /** requireAgentForMailbox. */
    method RequireMailbox(agentId: string) returns (error: Option<BusError>)
      ensures error == if IsAlive(Agents(), agentId) then None else Some(NoSuchMailbox(agentId))
    {
      hide AgentsOf;
      var agents := ReadRegistryLog();
      if agentId !in agents || agents[agentId].membership != "alive" {
        return Some(NoSuchMailbox(agentId));
      }
      error := None;
    }

    /** appendRegistryEventLocked: whatever the log held, it is closed afterwards; on a closed log the event
        is applied. */
    method AppendEvent(ev: Event)
      requires CleanEvent(ev)
      modifies this`log
      ensures log == old(log) + Block(ev) && Valid()
      ensures old(Valid()) ==> Agents() == ApplyEvent(old(Agents()), ev)
    {
      hide AgentsOf, Closed, CleanEvent, Block, ApplyEvent;
      AppendCloses(log, ev);
      if Closed(log) {
        AppendApplies(log, ev);
      }
      var sb := BuildBlock(ev);
      log := log + sb;
    }

    method Register(agentId: string, role: string, description: string, workingDir: string, model: string, now: string)
      returns (r: Result<Agent>)
      requires IsTimestamp(now)
      modifies this
      ensures r.Err? <==> !ValidAgentId(agentId) || role == ""
      ensures r.Err? ==> r.error == InvalidArgument && unchanged(this)
      ensures r.Ok? ==>
                && r.value == Agent(agentId, Sanitize(role), Sanitize(description), Sanitize(workingDir), Sanitize(model),
                                    "idle", "alive", now, None, now)
                && log == old(log) + Block(RegisterEvent(r.value)) && Valid()
                && snapshots == old(snapshots)[agentId := r.value]
      ensures r.Ok? && old(Valid()) ==> Agents() == old(Agents())[agentId := r.value]
      ensures r.Ok? && old(Valid()) && old(CoherentBut(agentId)) ==> Coherent()
    {
      hide AgentsOf, Closed, IsTimestamp, Block;
      if !ValidAgentId(agentId) {
        return Err(InvalidArgument);
      }
      if role == "" {
        return Err(InvalidArgument);
      }
      ValidIdIsOneLine(agentId);
      var agent := Agent(agentId, Sanitize(role), Sanitize(description), Sanitize(workingDir), Sanitize(model),
                         "idle", "alive", now, None, now);
      var ev := RegisterEvent(agent);
      RegisterApplies(Agents(), agent);
      hide ApplyEvent, AliveOnly;
      AppendEvent(ev);
      snapshots := snapshots[agentId := agent];
      r := Ok(agent);
      if old(Valid()) && old(CoherentBut(agentId)) {
        CoherenceRestored(old(Agents()), ev, old(snapshots), snapshots);
      }
    }

    /** Removing an unknown or already removed agent is a no-op that succeeds (it still appends). */
    method Unregister(agentId: string, now: string) returns (r: Result<string>)
      requires IsTimestamp(now)
      modifies this
      ensures r == if ValidAgentId(agentId) then Ok(now) else Err(InvalidArgument)
      ensures r.Err? ==> unchanged(this)
      ensures r.Ok? ==>
                && log == old(log) + Block(Plain("unregister", agentId, now)) && Valid()
                && snapshots == old(snapshots) - {agentId}
      ensures r.Ok? && old(Valid()) ==>
                && !IsAlive(Agents(), agentId)
                && Agents() == old(Agents())[agentId := Agent(agentId, "", "", "", "", "", "removed",
                     if agentId in old(Agents()) then old(Agents())[agentId].registeredAt else "", Some(now), "")]
      ensures r.Ok? && old(Valid()) && old(CoherentBut(agentId)) ==> Coherent()
    {
      hide AgentsOf, Closed, IsTimestamp, Block;
      if !ValidAgentId(agentId) {
        return Err(InvalidArgument);
      }
      ValidIdIsOneLine(agentId);
      var ev := Plain("unregister", agentId, now);
      ApplyOthers(Agents(), agentId, "", now);
      hide ApplyEvent, AliveOnly;
      AppendEvent(ev);
      snapshots := snapshots - {agentId};
      r := Ok(now);
      if old(Valid()) && old(CoherentBut(agentId)) {
        CoherenceRestored(old(Agents()), ev, old(snapshots), snapshots);
      }
    }

    /** Behind a torn tail the reread registry may lack the agent that was just found; then the process dies
        with the event written and the snapshot not. */
    method SetStatus(agentId: string, status: string, now: string) returns (r: Result<()>)
      requires IsTimestamp(now)
      modifies this
      ensures !ValidAgentId(agentId) || status == "" ==> r == Err(InvalidArgument)
      ensures ValidAgentId(agentId) && status != "" ==>
                (r.Ok? || r == Err(NilAgent(agentId)) <==> IsAlive(old(Agents()), agentId))
      ensures r.Err? && !r.error.NilAgent? ==> unchanged(this)
      ensures r.Err? && r.error.NilAgent? ==> !old(Valid()) && snapshots == old(snapshots)
      ensures r.Ok? || r.error.NilAgent? ==> log == old(log) + Block(StatusEvent(agentId, status, now)) && Valid()
      ensures r.Ok? ==>
                agentId in Agents() && snapshots == old(snapshots)[agentId := Agents()[agentId].(status := Sanitize(status))]
      ensures r.Ok? && old(Valid()) ==>
                Agents() == old(Agents())[agentId := old(Agents())[agentId].(status := Sanitize(status))]
      ensures r.Ok? && old(Valid()) && old(CoherentBut(agentId)) ==> Coherent()
    {
      hide AgentsOf, Closed, IsTimestamp, Block;
      if !ValidAgentId(agentId) || status == "" {
        return Err(InvalidArgument);
      }
      var clean := Sanitize(status);
      var found := RequireAgent(agentId);
      if found.Err? {
        return Err(found.error);
      }
      ValidIdIsOneLine(agentId);
      var ev := Plain("status", agentId, now).(status := clean);
      ApplyOthers(Agents(), agentId, status, now);
      hide ApplyEvent, AliveOnly;
      AppendEvent(ev);
      var agents := ReadRegistryLog();
      if agentId !in agents {
        return Err(NilAgent(agentId));
      }
      snapshots := snapshots[agentId := agents[agentId].(status := clean)];
      r := Ok(());
      if old(Valid()) && old(CoherentBut(agentId)) {
        CoherenceRestored(old(Agents()), ev, old(snapshots), snapshots);
      }
    }

    method Heartbeat(agentId: string, now: string) returns (r: Result<string>)
      requires IsTimestamp(now)
      modifies this
      ensures !ValidAgentId(agentId) ==> r == Err(InvalidArgument)
      ensures ValidAgentId(agentId) ==> (r == Ok(now) || r == Err(NilAgent(agentId)) <==> IsAlive(old(Agents()), agentId))
      ensures r.Err? && !r.error.NilAgent? ==> unchanged(this)
      ensures r.Err? && r.error.NilAgent? ==> !old(Valid()) && snapshots == old(snapshots)
      ensures r.Ok? || r.error.NilAgent? ==> log == old(log) + Block(Plain("heartbeat", agentId, now)) && Valid()
      ensures r.Ok? ==>
                r.value == now && agentId in Agents()
                && snapshots == old(snapshots)[agentId := Agents()[agentId].(lastSeen := now)]
      ensures r.Ok? && old(Valid()) ==> Agents() == old(Agents())[agentId := old(Agents())[agentId].(lastSeen := now)]
      ensures r.Ok? && old(Valid()) && old(CoherentBut(agentId)) ==> Coherent()
    {
      hide AgentsOf, Closed, IsTimestamp, Block;
      if !ValidAgentId(agentId) {
        return Err(InvalidArgument);
      }
      var found := RequireAgent(agentId);
      if found.Err? {
        return Err(found.error);
      }
      ValidIdIsOneLine(agentId);
      var ev := Plain("heartbeat", agentId, now);
      ApplyOthers(Agents(), agentId, "", now);
      hide ApplyEvent, AliveOnly;
      AppendEvent(ev);
      var agents := ReadRegistryLog();
      if agentId !in agents {
        return Err(NilAgent(agentId));
      }
      snapshots := snapshots[agentId := agents[agentId].(lastSeen := now)];
      r := Ok(now);
      if old(Valid()) && old(CoherentBut(agentId)) {
        CoherenceRestored(old(Agents()), ev, old(snapshots), snapshots);
      }
    }

    /** Replays the log over whatever the directory holds: alive agents are written, removed ones
        dropped, and files of agents the log does not mention are removed. */
    method RebuildSnapshots()
      modifies this`snapshots
      ensures Coherent()
    {
      AgentsArePlain(log);
      ghost var all := Agents();
      hide AgentsOf;
      var agents := ReadRegistryLog();
      var seen: set<string> := {};
      var left := agents.Keys;
      while left != {}
        invariant left <= agents.Keys && seen == agents.Keys - left
        invariant forall id :: id in seen ==>
                    (id in snapshots <==> agents[id].membership == "alive")
                    && (id in snapshots ==> snapshots[id] == agents[id])
        decreases left
      {
        var id :| id in left;
        var a := agents[id];
        seen := seen + {a.agentId};
        if a.membership == "alive" {
          snapshots := snapshots[a.agentId := a];
        } else {
          snapshots := snapshots - {a.agentId};
        }
        left := left - {id};
      }
      var files := snapshots.Keys;
      while files != {}
        invariant files <= snapshots.Keys
        invariant forall id :: id in seen ==>
                    (id in snapshots <==> agents[id].membership == "alive")
                    && (id in snapshots ==> snapshots[id] == agents[id])
        invariant forall id :: id in snapshots ==> id in files || id in seen
        decreases files
      {
        var id :| id in files;
        if id !in seen {
          snapshots := snapshots - {id};
        }
        files := files - {id};
      }
      assert snapshots == AliveOnly(agents);
    }
  }

  lemma ValidIdIsOneLine(id: string)
    requires ValidAgentId(id)
    ensures OneLine(id) && id != ""
  {
  }

  // ---- A death between the event and its snapshot ----

  /** The agent's snapshot file is what the registry says. */
  ghost predicate SnapshotRight(agents: Agents, snapshots: Agents, id: string) {
    if IsAlive(agents, id) then id in snapshots && snapshots[id] == agents[id] else id !in snapshots
  }

  lemma CoherentIffAllRight(agents: Agents, snapshots: Agents)
    ensures snapshots == AliveOnly(agents) <==> forall id :: SnapshotRight(agents, snapshots, id)
  {
    if forall id :: SnapshotRight(agents, snapshots, id) {
      var alive := AliveOnly(agents);
      forall id ensures id in snapshots <==> id in alive {
        assert SnapshotRight(agents, snapshots, id);
      }
      forall id | id in alive ensures snapshots[id] == alive[id] {
        assert SnapshotRight(agents, snapshots, id);
      }
    } else {
      var id :| !SnapshotRight(agents, snapshots, id);
    }
  }

  /** The event leaves its agent's place in the projection as it was. */
  ghost predicate SaysNothingNew(agents: Agents, ev: Event) {
    if ev.kind == "register" then IsAlive(agents, ev.agentId) && ApplyEvent(agents, ev) == agents
    else if ev.kind == "unregister" then !IsAlive(agents, ev.agentId)
    else ApplyEvent(agents, ev) == agents
  }

  /** A process that dies after appending its event and before touching the snapshot loses coherence exactly
      when the event says something new, and then for its own agent only. */
  lemma DeathBeforeSnapshot(log: Bytes, snapshots: Agents, ev: Event)
    requires Closed(log) && CleanEvent(ev) && snapshots == AliveOnly(AgentsOf(log))
    ensures snapshots == AliveOnly(AgentsOf(log + Block(ev))) <==> SaysNothingNew(AgentsOf(log), ev)
    ensures forall id :: id != ev.agentId ==> SnapshotRight(AgentsOf(log + Block(ev)), snapshots, id)
  {
    AppendApplies(log, ev);
    CoherentIffAllRight(AgentsOf(log), snapshots);
    hide AgentsOf, Closed, CleanEvent, Block;
    SameProjection(AgentsOf(log), ev);
  }

  lemma SameProjection(agents: Agents, ev: Event)
    ensures AliveOnly(ApplyEvent(agents, ev)) == AliveOnly(agents) <==> SaysNothingNew(agents, ev)
  {
    var before, after := AliveOnly(agents), AliveOnly(ApplyEvent(agents, ev));
    ProjectionStep(agents, ev);
    if ev.agentId in agents && ev.agentId in ApplyEvent(agents, ev) {
      if before == after && ev.kind != "unregister" {
        assert IsAlive(agents, ev.agentId) <==> ev.agentId in before;
        assert ev.agentId in before ==> before[ev.agentId] == after[ev.agentId];
        assert ApplyEvent(agents, ev) == agents;
      }
    } else if ev.kind == "register" {
      assert ev.agentId in after && ev.agentId !in before;
    }
  }

  /** Nothing that completes for other agents repairs the file or spoils a right one; recovery leaves
      snapshots alone. */
  lemma OthersLeaveSnapshot(agents: Agents, snapshots: Agents, snapshots': Agents, ev: Event, id: string)
    requires ev.agentId != id
    requires id in snapshots <==> id in snapshots'
    requires id in snapshots ==> snapshots'[id] == snapshots[id]
    ensures SnapshotRight(ApplyEvent(agents, ev), snapshots', id) <==> SnapshotRight(agents, snapshots, id)
  {
  }
}
