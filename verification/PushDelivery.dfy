/** The pusher over the states the protocol reaches and the snapshots the registry keeps. */
module PushDelivery {
  import opened Text
  import opened Codec
  import opened Storage
  import opened Compaction
  import opened Protocol
  import opened Invariant
  import opened Runs
  import opened RegistryLog
  import opened RegistryLaws
  import opened Registry
  import opened Pusher

  /** AgentSeen: the agents noted by this process and those with a snapshot file. */
  function SeenAgents(noted: set<AgentId>, snapshots: Agents): set<AgentId> {
    noted + snapshots.Keys - {""}
  }

  /** In every state the protocol reaches, torn or not, a tick that is not cut short pushes, from the
      log of any agent the registry holds alive, exactly the records above the mark, provided the
      snapshot directory is coherent; and it moves the mark to the last seq. Which process the agent
      registered through does not matter. */
  lemma MailOfAliveAgentsIsPushed(s: State, registryLog: Bytes, noted: set<AgentId>, marks: Watermarks, visits: seq<Visit>,
                                  i: nat, r: Record)
    requires Reachable(s) && i < |visits| && OncePerMailbox(visits) && IsAlive(AgentsOf(registryLog), visits[i].agent)
    requires visits[i].data == Some(FileOf(s.disk.logs, visits[i].agent))
    requires visits[i].seen == SeenAgents(noted, AliveOnly(AgentsOf(registryLog)))
    ensures var a := visits[i].agent;
            var rs := RecordsOf(s.disk.logs, a);
            && (Push(a, r) in TickPushes(marks, visits) <==> r in rs && MarkOf(marks, a) < r.seqNo)
            && (rs != [] && rs[|rs| - 1].seqNo > MarkOf(marks, a) ==>
                  MarkOf(MarksAfter(marks, visits), a) == rs[|rs| - 1].seqNo)
  {
    var a := visits[i].agent;
    AliveIsSeen(registryLog, noted, a);
    FoundInOrder(s, visits[i]);
    hide AgentsOf, RecordsOf, TickPushes, MarksAfter, FileOf, Reachable, Found, Increasing, MarkOf;
    TickIsComplete(marks, visits, i, r);
  }

  /** The same for an agent this process has noted, whatever the snapshot directory holds; and mail of an agent
      that is neither noted nor has a snapshot is not pushed. */
  lemma MailOfNotedAgentsIsPushed(s: State, noted: set<AgentId>, snapshots: Agents, marks: Watermarks, visits: seq<Visit>,
                                  i: nat, r: Record)
    requires Reachable(s) && i < |visits| && OncePerMailbox(visits) && visits[i].agent != ""
    requires visits[i].data == Some(FileOf(s.disk.logs, visits[i].agent)) && visits[i].seen == SeenAgents(noted, snapshots)
    requires r in RecordsOf(s.disk.logs, visits[i].agent) && MarkOf(marks, visits[i].agent) < r.seqNo
    ensures Push(visits[i].agent, r) in TickPushes(marks, visits) <==> visits[i].agent in noted || visits[i].agent in snapshots
  {
    FoundInOrder(s, visits[i]);
    hide RecordsOf, TickPushes, MarksAfter, FileOf, Reachable, Found, Increasing, MarkOf;
    TickIsComplete(marks, visits, i, r);
  }

  lemma AliveIsSeen(registryLog: Bytes, noted: set<AgentId>, a: AgentId)
    requires IsAlive(AgentsOf(registryLog), a)
    ensures a in SeenAgents(noted, AliveOnly(AgentsOf(registryLog)))
  {
    AgentsArePlain(registryLog);
    hide AgentsOf;
  }

  /** What a visit finds in a reachable state: the mailbox's records, in seq order, all addressed to
      its owner. */
  lemma FoundInOrder(s: State, visit: Visit)
    requires Reachable(s) && visit.data == Some(FileOf(s.disk.logs, visit.agent))
    ensures Found(visit) == RecordsOf(s.disk.logs, visit.agent) && Increasing(Found(visit))
    ensures forall r :: r in Found(visit) ==> r.to == visit.agent
  {
    DiskIsSound(s);
    hide ParseAll, FileOf, Reachable, SeqOf, Settled;
    assert Ascending(RecordsOf(s.disk.logs, visit.agent));
  }

  /** A process that dies between an agent's register event and its snapshot leaves the agent alive but unseen
      by every pusher that has not noted it: a tick passes its mail for good. */
  lemma LostSnapshotLosesPushes(s: State, registryLog: Bytes, ev: Event, noted: set<AgentId>, marks: Watermarks,
                                visits: seq<Visit>, i: nat, r: Record, later: seq<seq<Visit>>)
    requires Reachable(s) && Closed(registryLog) && CleanEvent(ev) && ev.kind == "register"
    requires !IsAlive(AgentsOf(registryLog), ev.agentId) && ev.agentId !in noted
    requires i < |visits| && OncePerMailbox(visits) && visits[i].agent == ev.agentId
    requires visits[i].data == Some(FileOf(s.disk.logs, ev.agentId)) && r in RecordsOf(s.disk.logs, ev.agentId)
    requires visits[i].seen == SeenAgents(noted, AliveOnly(AgentsOf(registryLog)))
    ensures IsAlive(AgentsOf(registryLog + Block(ev)), ev.agentId)
    ensures Push(ev.agentId, r) !in TickPushes(marks, visits) + AllPushes(MarksAfter(marks, visits), later)
  {
    AppendApplies(registryLog, ev);
    FoundInOrder(s, visits[i]);
    hide AgentsOf, Closed, CleanEvent, Block, RecordsOf, FileOf, Reachable, TickPushes, AllPushes, MarksAfter, Found,
      Increasing;
    PassedForGood(marks, visits, i, r, later);
  }
}
