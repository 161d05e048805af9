/**
 The scheduler and the conversation with the agent: a pass sends a start only where the protocol allows one,
 and the tables follow the protocol's daemon through log-ins, recons and the loss of the agent.
 */
module SchedLink {
  import opened Options
  import opened JobStates
  import opened SchedState
  import opened SchedSteps
  import opened SchedRun
  import opened SchedRecon
  import opened SchedView
  import opened SchedStarts
  import Protocol

  // The tables know of the agent what the protocol's daemon knows.
  predicate SameFlags(s: Server, a: AgentId, t: Protocol.System) {
    && a in s.agents
    && s.agents[a].loggedIn == (t.daemonUp && t.loggedIn) && (t.daemonUp && t.loggedIn ==> s.agents[a].recon == t.recon)
  }

  predicate Agree(s: Server, a: AgentId, t: Protocol.System) {
    Records(s.jobs) == t.jobs && SameFlags(s, a, t)
  }

  // -------------------------------------------------------------------------
  // Starts
  // -------------------------------------------------------------------------

  // Whatever job a call of the scheduler sends to the agent, the protocol allows that start.
  lemma StartIsEnabled(s: Server, a: AgentId, t: Protocol.System, id: JobId, policy: Protocol.Policy)
    requires BaseInv(s) && Agree(s, a, t)
    requires id in s.jobs && s.jobs[id].queue in s.queues && s.queues[s.jobs[id].queue].agent == Some(a)
    requires var sent := CheckJobs(s); id in sent.jobs && sent.jobs[id].started && !s.jobs[id].started
    ensures Protocol.Enabled(t, Protocol.SendStart(id), policy)
  {
    ScheduleSends(s, id);
    hide CheckJobs, OnlySends;
    assert JobOk(s.jobs[id]);
    assert t.jobs[id] == Record(s.jobs[id]);
  }

  // The agent serves every queue that has an agent.
  predicate OnlyAgent(s: Server, a: AgentId) {
    forall q :: q in s.queues ==> s.queues[q].agent == None || s.queues[q].agent == Some(a)
  }

  predicate AllStarts(events: seq<Protocol.Event>) {
    forall i :: 0 <= i < |events| ==> events[i].SendStart?
  }

  lemma StartAgrees(s: Server, a: AgentId, t: Protocol.System, x: JobId, policy: Protocol.Policy)
    requires BaseInv(s) && Agree(s, a, t) && OnlyAgent(s, a) && Startable(s, Some(x))
    ensures Protocol.Enabled(t, Protocol.SendStart(x), policy) && Protocol.Enabled(t, Protocol.SendStart(x), Protocol.ResolveAny)
    ensures Known(s, x) && BaseInv(Start(s, x)) && OnlyAgent(Start(s, x), a)
    ensures Agree(Start(s, x), a, Protocol.Apply(t, Protocol.SendStart(x)))
  {
    StartableIff(s, x);
    StartBase(s, x);
    assert JobOk(s.jobs[x]);
    assert t.jobs[x] == Record(s.jobs[x]);
    hide Startable, BaseInv, Allocate;
    RecordsChanged(s.jobs, x, s.jobs[x].(started := true));
    hide Records;
  }

  lemma {:induction false} PassIsConversation(s: Server, i: nat, quota: int, a: AgentId, t: Protocol.System, policy: Protocol.Policy)
    returns (events: seq<Protocol.Event>)
    requires BaseInv(s) && Agree(s, a, t) && OnlyAgent(s, a)
    ensures AllStarts(events) && Protocol.IsRun(t, events, policy)
    ensures Agree(PassFrom(s, i, quota), a, Protocol.Run(t, events, policy))
    decreases |s.pool| - i
  {
    hide BaseInv, OnlyAgent, Agree;
    events := [];
    if i < |s.pool| {
      if Startable(s, s.pool[i]) {
        var x := s.pool[i].value;
        StartFacts(s, s.pool[i]);
        StartAgrees(s, a, t, x, policy);
        hide Startable, Start, Protocol.Enabled, Protocol.Apply;
        var t1, rest := Protocol.Apply(t, Protocol.SendStart(x)), [];
        if quota > 1 { rest := PassIsConversation(Start(s, x), i + 1, quota - 1, a, t1, policy); }
        events := [Protocol.SendStart(x)] + rest;
        assert events[1..] == rest;
      } else {
        events := PassIsConversation(s, i + 1, quota, a, t, policy);
      }
    }
  }

  // A whole call of the scheduler is a run of the protocol that sends starts, and tables and protocol agree
  // again when it is over.
  lemma ScheduleIsConversation(s: Server, a: AgentId, t: Protocol.System, policy: Protocol.Policy) returns (events: seq<Protocol.Event>)
    requires BaseInv(s) && Agree(s, a, t) && OnlyAgent(s, a)
    ensures AllStarts(events) && Protocol.IsRun(t, events, policy)
    ensures Agree(CheckJobs(s), a, Protocol.Run(t, events, policy))
  {
    hide PassFrom, GeneratePool, BaseInv;
    events := [];
    if s.maxRun == UNLIMITED_JOBS || s.stats.Get(Running) < s.maxRun {
      var s1 := if s.recalc then GeneratePool(s) else s;
      if s.recalc { GenerateShape(s); QueuesBase(s, s1); }
      if !s1.readonly { events := PassIsConversation(s1, 0, Quota(s1), a, t, policy); }
    }
  }

  // -------------------------------------------------------------------------
  // Messages and the loss of the agent
  // -------------------------------------------------------------------------

  // Handling a message keeps the agreement: records and flags alike.
  lemma MessageAgrees(s: Server, a: AgentId, t: Protocol.System, m: Protocol.Up, hosts: set<QueueId>)
    requires TableInv(s) && t.daemonUp && Records(s.jobs) == t.jobs && (m.Login? || SameFlags(s, a, t))
    ensures Agree(Apply(s, Handled(m, a, hosts)), a, Protocol.DaemonReceives(t, m))
  {
    HandlersAgree(s, t, m, a, hosts);
    hide TableInv, Records;
    match m
    case Login => LoginEffect(s, a, hosts);
    case JobStarted(j) => ReportKeepsAgents(s, StartedMsg(j)); hide Apply;
    case JobCompleted(j, ok) => ReportKeepsAgents(s, CompletedMsg(j, !ok)); hide Apply;
    case Recon(items) => ReconEffect(s, a, Items(items), 0); hide Recon, Items;
  }

  lemma ReportKeepsAgents(s: Server, e: Event)
    requires e.StartedMsg? || e.CompletedMsg?
    ensures Apply(s, e).agents == s.agents
  {
    if Known(s, e.id) {
      var s1 := if e.StartedMsg? then s else NeedsReturned(s, e.id);
      ChangeShape(s1, e.id, if e.StartedMsg? then Running else FinalState(e.failed), None, true);
    }
    hide ChangeJobState, Deallocate;
  }

  // Losing the agent does to its jobs what it does in the protocol, and nothing to the others.
  lemma DisconnectAgrees(s: Server, a: AgentId, t: Protocol.System, kept: nat, id: JobId)
    requires TableInv(s) && Records(s.jobs) == t.jobs && Protocol.Enabled(t, Protocol.DaemonDisconnect(kept), Protocol.ResolveAny)
    requires id in s.jobs
    ensures var s', t' := Disconnect(s, a), Protocol.Apply(t, Protocol.DaemonDisconnect(kept));
            && SameFlags(s', a, t') && id in s'.jobs && id in t'.jobs
            && Record(s'.jobs[id]) == if s.jobs[id].queue in s.queues && s.queues[s.jobs[id].queue].agent == Some(a)
                                      then t'.jobs[id] else Record(s.jobs[id])
  {
    AgentGoneEffect(s, a, id);
    hide Disconnect, TableInv;
    assert t.jobs[id] == Record(s.jobs[id]);
  }
}
