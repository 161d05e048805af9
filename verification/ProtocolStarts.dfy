/**
 Every start is answered, and what runs is recorded as running: with both sides connected a job that has been
 sent has its start, its report or its completion on the way, and once nothing is on the way any more the
 daemon's records and the agent's list say the same.
 */
module ProtocolStarts {
  import opened JobStates
  import opened Protocol
  import opened ProtocolLoss
  import opened ProtocolTruth

  // A job that has been sent and not been answered has something of it on the way.
  predicate SentIsOnTheWay(s: System, j: JobId) {
    j in s.jobs && s.jobs[j].started ==>
      s.daemonUp && (s.agentUp ==> StartJob(j) in s.down || JobStarted(j) in s.up || HasCompletion(s.up, j))
  }

  // A process of a reconciled agent is recorded as running, or its report is on the way.
  predicate LiveIsKnown(s: System, j: JobId) {
    s.agentUp && Ready(s) && Entry(j, Live) in s.entries ==> JobStarted(j) in s.up || (j in s.jobs && s.jobs[j].state == Running)
  }

  // A recon on its way names every process that is still alive.
  predicate LiveIsNamed(s: System, j: JobId) {
    s.agentUp && s.daemonUp && EndsInRecon(s.up) && Entry(j, Live) in s.entries ==> Entry(j, Live) in s.up[|s.up| - 1].items
  }

  predicate Answered(s: System, j: JobId) {
    SentIsOnTheWay(s, j) && LiveIsKnown(s, j) && LiveIsNamed(s, j)
  }

  // -------------------------------------------------------------------------
  // Preservation
  // -------------------------------------------------------------------------

  lemma UserAnswered(s: System, e: Event, j: JobId, policy: Policy)
    requires SessionInv(s) && JobInv(s, j, policy) && Answered(s, j) && Enabled(s, e, policy)
    requires e.AddJob? || e.ModJob? || e.DeleteJob? || e.CleanupJob? || e.ResolveUnknown? || e.SendStart?
    ensures Answered(Apply(s, e), j)
  {
  }

  lemma ConnectionAnswered(s: System, e: Event, j: JobId, policy: Policy)
    requires SessionInv(s) && JobInv(s, j, policy) && Answered(s, j) && Enabled(s, e, policy)
    requires e.DaemonDisconnect? || e.AgentDisconnect? || e.AgentConnect?
    ensures Answered(Apply(s, e), j)
  {
  }

  lemma {:induction false} ReconAllRuns(jobs: map<JobId, Job>, items: seq<Entry>, j: JobId)
    requires j in jobs && !HasDone(items, j)
    ensures j in ReconAll(jobs, items)
    ensures Entry(j, Live) in items || jobs[j].state == Running ==> ReconAll(jobs, items)[j].state == Running
  {
    if items != [] {
      assert items[0] in items && forall x :: x in items[1..] ==> x in items;
      ReconAllRuns(ReconOne(jobs, items[0]), items[1..], j);
    }
  }

  lemma ReconAnswered(s: System, j: JobId, policy: Policy)
    requires SessionInv(s) && JobInv(s, j, policy) && Answered(s, j) && Enabled(s, DaemonRecv, policy) && s.up[0].Recon?
    ensures Answered(Apply(s, DaemonRecv), j)
  {
    OnlyLastRecon(s, 0);
    var items := s.up[0].items;
    ReconAllJob(s.jobs, items, j);
    assert s.up[1..] == [];
    if s.agentUp && Entry(j, Live) in s.entries {
      if HasDone(s.entries, j) { NoProcessBesideDone(s.entries, j); }
      ReconAllRuns(s.jobs, items, j);
    }
  }

  // What reading a report or a log-in changes.
  lemma ReportNews(s: System, policy: Policy)
    requires Enabled(s, DaemonRecv, policy) && !s.up[0].Recon?
    ensures var s' := Apply(s, DaemonRecv);
            && s'.up == s.up[1..] && s'.entries == s.entries && s'.agentUp == s.agentUp && s'.daemonUp
            && (forall x :: x in s.down ==> x in s'.down) && (Ready(s') ==> Ready(s))
            && (forall x :: x in s.up ==> x == s.up[0] || x in s'.up)
            && (EndsInRecon(s'.up) ==> EndsInRecon(s.up) && s'.up[|s'.up| - 1] == s.up[|s.up| - 1])
  {
    var s' := Apply(s, DaemonRecv);
    assert s'.up == s.up[1..] && s'.entries == s.entries && s'.agentUp == s.agentUp && s'.daemonUp;
    assert (s'.down == s.down || s'.down == s.down + [ReconReq]) && (Ready(s') ==> Ready(s));
    hide Apply, Enabled, Ready;
    assert forall x :: x in s.up ==> x == s.up[0] || x in s.up[1..];
  }

  lemma ReportRecord(s: System, j: JobId, policy: Policy)
    requires JobInv(s, j, policy) && Enabled(s, DaemonRecv, policy) && !s.up[0].Recon?
    ensures var s' := Apply(s, DaemonRecv);
            && (j in s'.jobs && s'.jobs[j].started ==> j in s.jobs && s.jobs[j].started && s.up[0] != JobStarted(j) && !CompletionOf(s.up[0], j))
            && (s.up[0] == JobStarted(j) ==> j in s'.jobs && s'.jobs[j].state == Running)
            && (Entry(j, Live) in s.entries && j in s.jobs && s.jobs[j].state == Running ==> j in s'.jobs && s'.jobs[j].state == Running)
  {
    assert s.up[0] in s.up;
    assert CompletionOf(s.up[0], j) ==> HasCompletion(s.up, j);
  }

  lemma ReportAnswered(s: System, j: JobId, policy: Policy)
    requires SessionInv(s) && JobInv(s, j, policy) && Answered(s, j) && Enabled(s, DaemonRecv, policy) && !s.up[0].Recon?
    ensures Answered(Apply(s, DaemonRecv), j)
  {
    hide SessionInv, JobInv, Apply, Ready, EndsInRecon;
    var s' := Apply(s, DaemonRecv);
    ReportNews(s, policy);
    ReportRecord(s, j, policy);
    assert HasCompletion(s.up, j) && !CompletionOf(s.up[0], j) ==> HasCompletion(s'.up, j);
  }

  lemma SpawnAnswered(s: System, spawned: bool, j: JobId, policy: Policy)
    requires SessionInv(s) && JobInv(s, j, policy) && Answered(s, j) && Enabled(s, AgentRecv(spawned), policy) && s.down[0].StartJob?
    ensures Answered(Apply(s, AgentRecv(spawned)), j)
  {
    var s', k := Apply(s, AgentRecv(spawned)), s.down[0].job;
    assert s.down[0] in s.down && s'.down == s.down[1..] && forall x :: x in s.down ==> x == s.down[0] || x in s.down[1..];
    assert forall x :: x in s.up ==> x in s'.up;
    assert s.daemonUp ==> s'.up[|s'.up| - 1] in s'.up && !EndsInRecon(s'.up);
    assert forall x :: x in s'.entries ==> x in s.entries || x == Entry(k, Live);
  }

  lemma AnswerAnswered(s: System, spawned: bool, j: JobId, policy: Policy)
    requires SessionInv(s) && JobInv(s, j, policy) && Answered(s, j) && Enabled(s, AgentRecv(spawned), policy) && !s.down[0].StartJob?
    ensures Answered(Apply(s, AgentRecv(spawned)), j)
  {
    var s' := Apply(s, AgentRecv(spawned));
    assert s'.down == s.down[1..] && forall x :: x in s.down ==> x == s.down[0] || x in s.down[1..];
    assert forall x :: x in s.up ==> x in s'.up;
    if s.down[0].ReconReq? {
      assert s.daemonUp ==> s'.up[|s'.up| - 1] == Recon(s.entries);
    } else {
      DroppedIff(s.entries);
    }
  }

  lemma ExitAnswered(s: System, i: nat, ok: bool, reaped: bool, j: JobId, policy: Policy)
    requires SessionInv(s) && JobInv(s, j, policy) && Answered(s, j) && Enabled(s, ProcessExit(i, ok, reaped), policy)
    ensures Answered(Apply(s, ProcessExit(i, ok, reaped)), j)
  {
    hide SessionInv, JobInv, Apply;
    var s' := Apply(s, ProcessExit(i, ok, reaped));
    ExitNews(s, i, ok, reaped, policy);
    SameRecon(s, s', policy);
    ExitKeeps(s, i, ok, reaped, policy);
  }

  lemma ExitKeeps(s: System, i: nat, ok: bool, reaped: bool, policy: Policy)
    requires Enabled(s, ProcessExit(i, ok, reaped), policy)
    ensures var s' := Apply(s, ProcessExit(i, ok, reaped));
            s'.down == s.down && s'.agentUp == s.agentUp && s'.daemonUp == s.daemonUp && forall x :: x in s.up ==> x in s'.up
  {
  }

  lemma AnsweredKept(s: System, e: Event, j: JobId, policy: Policy)
    requires SessionInv(s) && JobInv(s, j, policy) && Answered(s, j) && Enabled(s, e, policy)
    ensures Answered(Apply(s, e), j)
  {
    hide SessionInv, JobInv, Answered, Apply;
    match e
    case DaemonRecv => if s.up[0].Recon? { ReconAnswered(s, j, policy); } else { ReportAnswered(s, j, policy); }
    case AgentRecv(spawned) => if s.down[0].StartJob? { SpawnAnswered(s, spawned, j, policy); } else { AnswerAnswered(s, spawned, j, policy); }
    case ProcessExit(i, ok, reaped) => ExitAnswered(s, i, ok, reaped, j, policy);
    case DaemonDisconnect(_) => ConnectionAnswered(s, e, j, policy);
    case AgentDisconnect(_) => ConnectionAnswered(s, e, j, policy);
    case AgentConnect => ConnectionAnswered(s, e, j, policy);
    case _ => UserAnswered(s, e, j, policy);
  }

  lemma {:induction false} RunAnswered(s: System, events: seq<Event>, j: JobId, policy: Policy)
    requires policy != ResolveAny && Inv(s, policy) && IsRun(s, events, policy) && Answered(s, j)
    ensures Answered(Run(s, events, policy), j)
    decreases events
  {
    if events != [] {
      assert JobInv(s, j, policy);
      AnsweredKept(s, events[0], j, policy);
      StepKept(s, events[0], policy);
      hide Inv, Answered, Apply, JobInv;
      RunAnswered(Apply(s, events[0]), events[1..], j, policy);
    }
  }

  // -------------------------------------------------------------------------
  // All runs
  // -------------------------------------------------------------------------

  // In every run: while both sides are connected, a job that is sent and unanswered has its start message,
  // its start report or its completion on the way; once nothing is on the way and the agent is reconciled,
  // no job is unanswered and every process is that of a RUNNING job.
  lemma StartsAreAnswered(s: System, events: seq<Event>, j: JobId, policy: Policy)
    requires policy != ResolveAny && Initial(s) && IsRun(s, events, policy)
    ensures var t := Run(s, events, policy);
            && (j in t.jobs && t.jobs[j].started && t.agentUp && t.daemonUp ==>
                  StartJob(j) in t.down || JobStarted(j) in t.up || JobCompleted(j, true) in t.up || JobCompleted(j, false) in t.up)
            && (t.agentUp && t.daemonUp && t.loggedIn && !t.recon && t.down == [] && t.up == [] ==>
                  && (j in t.jobs ==> !t.jobs[j].started)
                  && (Entry(j, Live) in t.entries ==> j in t.jobs && t.jobs[j].state == Running))
  {
    RunAnswered(s, events, j, policy);
  }
}
