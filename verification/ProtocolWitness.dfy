/**
 Short runs of the conversation between daemon and agent that show where its promises end.
 */
module ProtocolWitness {
  import opened JobStates
  import opened Protocol
  import opened ProtocolLoss

  // -------------------------------------------------------------------------
  // Witness runs. Job 1 is alone in the table.
  // -------------------------------------------------------------------------

  ghost predicate Reachable(t: System, policy: Policy) {
    exists s, events :: Initial(s) && IsRun(s, events, policy) && Run(s, events, policy) == t
  }

  lemma ReachNext(t: System, e: Event, u: System, policy: Policy)
    requires Reachable(t, policy) && Enabled(t, e, policy) && u == Apply(t, e)
    ensures Reachable(u, policy)
  {
    var s, events :| Initial(s) && IsRun(s, events, policy) && Run(s, events, policy) == t;
    Extend(s, events, e, policy);
  }

  function Alone(st: JobState, started: bool): map<JobId, Job> {
    map[1 := Job(st, started, false)]
  }

  // The agent is away, holding the given list.
  function Away(st: JobState, inRecon: bool, es: seq<Entry>, recon: bool): System {
    System(Alone(st, false), false, false, recon, false, inRecon, es, [], [])
  }

  // The agent is connected and reconciled, with the given messages on their way.
  function Linked(st: JobState, started: bool, es: seq<Entry>, down: seq<Down>, up: seq<Up>): System {
    System(Alone(st, started), true, true, false, true, false, es, down, up)
  }

  // The agent comes back and sends its list; the daemon has not read it yet.
  lemma ReachRecon(st: JobState, inRecon: bool, es: seq<Entry>, recon: bool, policy: Policy)
    requires Reachable(Away(st, inRecon, es, recon), policy) && (policy == ResolveSettled ==> NoEnding(es))
    ensures Reachable(System(Alone(st, false), true, true, true, true, true, es, [], [Recon(es)]), policy)
  {
    hide Reachable;
    var a := Away(st, inRecon, es, recon);
    var s1 := a.(daemonUp := true, agentUp := true, up := [Login]);
    ReachNext(a, AgentConnect, s1, policy);
    var s2 := s1.(loggedIn := true, recon := true, up := [], down := [ReconReq]);
    ReachNext(s1, DaemonRecv, s2, policy);
    var s3 := s2.(inRecon := true, up := [Recon(es)], down := []);
    ReachNext(s2, AgentRecv(true), s3, policy);
  }

  lemma ReconEnding(es: seq<Entry>)
    requires es == [] || es == [Entry(1, Ending)]
    ensures DropDone(es) == es && forall st :: ReconAll(Alone(st, false), es) == Alone(st, false)
  {
    if es != [] { assert es[1..] == []; }
  }

  // With an empty or unfinished list nothing changes and the session is open for starts.
  lemma ReachLinked(st: JobState, inRecon: bool, es: seq<Entry>, recon: bool, policy: Policy)
    requires Reachable(Away(st, inRecon, es, recon), policy)
    requires es == [] || (es == [Entry(1, Ending)] && policy != ResolveSettled)
    ensures Reachable(Linked(st, false, es, [], []), policy)
  {
    hide Reachable;
    ReachRecon(st, inRecon, es, recon, policy);
    var s3 := System(Alone(st, false), true, true, true, true, true, es, [], [Recon(es)]);
    ReconEnding(es);
    var s4 := s3.(recon := false, up := [], down := [ReconComplete]);
    ReachNext(s3, DaemonRecv, s4, policy);
    ReachNext(s4, AgentRecv(true), s4.(down := [], inRecon := false), policy);
  }

  lemma StartSteps(es: seq<Entry>, policy: Policy)
    ensures var s := Linked(Pending, false, es, [], []); var s1 := Linked(Pending, true, es, [StartJob(1)], []);
            Enabled(s, SendStart(1), policy) && Apply(s, SendStart(1)) == s1
    ensures var s1 := Linked(Pending, true, es, [StartJob(1)], []);
            var s2 := Linked(Pending, true, [Entry(1, Live)] + es, [], [JobStarted(1)]);
            Enabled(s1, AgentRecv(true), policy) && Apply(s1, AgentRecv(true)) == s2
  {
    assert Alone(Pending, false)[1 := Job(Pending, true, false)] == Alone(Pending, true);
    assert [StartJob(1)][1..] == [];
  }

  lemma ReportStep(st: JobState, started: bool, es: seq<Entry>, m: Up, st': JobState, policy: Policy)
    requires (m == JobStarted(1) && st' == Running) || (m.JobCompleted? && m.job == 1 && st' == Finished(m.ok))
    ensures var s := Linked(st, started, es, [], [m]);
            Enabled(s, DaemonRecv, policy) && Apply(s, DaemonRecv) == Linked(st', false, es, [], [])
  {
    assert Alone(st, started)[1 := Job(st', false, false)] == Alone(st', false);
    assert [m][1..] == [];
  }

  // A pending job is started and its start report read.
  lemma ReachStarted(es: seq<Entry>, policy: Policy)
    requires Reachable(Linked(Pending, false, es, [], []), policy)
    ensures Reachable(Linked(Running, false, [Entry(1, Live)] + es, [], []), policy)
  {
    StartSteps(es, policy);
    var s1 := Linked(Pending, true, es, [StartJob(1)], []);
    ReachNext(Linked(Pending, false, es, [], []), SendStart(1), s1, policy);
    var s2 := Linked(Pending, true, [Entry(1, Live)] + es, [], [JobStarted(1)]);
    ReachNext(s1, AgentRecv(true), s2, policy);
    ReportStep(Pending, true, [Entry(1, Live)] + es, JobStarted(1), Running, policy);
    ReachNext(s2, DaemonRecv, Linked(Running, false, [Entry(1, Live)] + es, [], []), policy);
  }

  lemma ReachFirstStart(policy: Policy)
    ensures Reachable(Linked(Running, false, [Entry(1, Live)], [], []), policy)
  {
    var a := Away(Pending, false, [], false);
    assert Initial(a) && IsRun(a, [], policy) && Run(a, [], policy) == a;
    ReachLinked(Pending, false, [], false, policy);
    ReachStarted([], policy);
    assert [Entry(1, Live)] + [] == [Entry(1, Live)];
  }

  // The connection drops on both sides.
  lemma ReachAway(es: seq<Entry>, policy: Policy)
    requires Reachable(Linked(Running, false, es, [], []), policy)
    ensures Reachable(Away(Unknown, false, es, false), policy)
  {
    var s := Linked(Running, false, es, [], []);
    var s1 := s.(jobs := Alone(Unknown, false), daemonUp := false, loggedIn := false);
    assert MarkUnknown(s.jobs) == s1.jobs;
    ReachNext(s, DaemonDisconnect(0), s1, policy);
    ReachNext(s1, AgentDisconnect(0), Away(Unknown, false, es, false), policy);
  }

  lemma ReachReconOfLive(policy: Policy)
    ensures var es := [Entry(1, Live)];
            Reachable(System(Alone(Unknown, false), true, true, true, true, true, es, [], [Recon(es)]), policy)
  {
    ReachFirstStart(policy);
    ReachAway([Entry(1, Live)], policy);
    ReachRecon(Unknown, false, [Entry(1, Live)], false, policy);
  }

  lemma LossSteps(policy: Policy)
    ensures var es := [Entry(1, Live)];
            var s3 := System(Alone(Unknown, false), true, true, true, true, true, es, [], [Recon(es)]);
            var s4 := s3.(jobs := Alone(Running, false), recon := false, up := [], down := [ReconComplete]);
            var s5 := s4.(entries := [Entry(1, Done(true))]);
            && Enabled(s3, DaemonRecv, policy) && Apply(s3, DaemonRecv) == s4
            && Enabled(s4, ProcessExit(0, true, true), policy) && Apply(s4, ProcessExit(0, true, true)) == s5
            && Enabled(s5, AgentRecv(true), policy) && Apply(s5, AgentRecv(true)) == Linked(Running, false, [], [], [])
  {
    var es := [Entry(1, Live)];
    assert es[1..] == [] && [Entry(1, Done(true))][1..] == [] && [ReconComplete][1..] == [] && [Recon(es)][1..] == [];
    assert Alone(Unknown, false)[1 := Job(Running, false, false)] == Alone(Running, false);
    assert ReconAll(Alone(Unknown, false), es) == Alone(Running, false);
    assert DropDone([Entry(1, Done(true))]) == [];
  }

  // A process that ends while the recon naming it is being handled is never reported: the daemon
  // holds the job RUNNING and nothing about it is left anywhere.
  lemma CompletionCanBeLost(policy: Policy)
    ensures var t := Linked(Running, false, [], [], []);
            Reachable(t, policy) && t.daemonUp && t.agentUp && Owed(t, 1) && !Accounted(t, 1)
  {
    hide Reachable;
    var es := [Entry(1, Live)];
    ReachReconOfLive(policy);
    LossSteps(policy);
    var s3 := System(Alone(Unknown, false), true, true, true, true, true, es, [], [Recon(es)]);
    var s4 := s3.(jobs := Alone(Running, false), recon := false, up := [], down := [ReconComplete]);
    ReachNext(s3, DaemonRecv, s4, policy);
    ReachNext(s4, ProcessExit(0, true, true), s4.(entries := [Entry(1, Done(true))]), policy);
    ReachNext(s4.(entries := [Entry(1, Done(true))]), AgentRecv(true), Linked(Running, false, [], [], []), policy);
  }

  // -------------------------------------------------------------------------
  // A report lost with the connection
  // -------------------------------------------------------------------------

  // A process ends and its completion is written; the connection closes before the daemon reads it, and
  // the agent comes back with an empty list.
  lemma ReportCanGoDownWithConnection(policy: Policy)
    ensures var t := Linked(Unknown, false, [], [], []);
            Reachable(t, policy) && t.daemonUp && t.agentUp && Active(t.jobs, 1) && !Accounted(t, 1)
  {
    ReachFirstStart(policy);
    ReachReportDropped(policy);
    hide Reachable;
    ReachLinked(Unknown, false, [], false, policy);
  }

  lemma ReachReportDropped(policy: Policy)
    requires Reachable(Linked(Running, false, [Entry(1, Live)], [], []), policy)
    ensures Reachable(Away(Unknown, false, [], false), policy)
  {
    hide Reachable;
    var s := Linked(Running, false, [Entry(1, Live)], [], []);
    var s1 := Linked(Running, false, [], [], [JobCompleted(1, true)]);
    assert [Entry(1, Live)][..0] + [Entry(1, Live)][1..] == [];
    ReachNext(s, ProcessExit(0, true, true), s1, policy);
    var s2 := s1.(jobs := Alone(Unknown, false), daemonUp := false, loggedIn := false, up := []);
    assert MarkUnknown(s1.jobs) == s2.jobs;
    ReachNext(s1, DaemonDisconnect(0), s2, policy);
    ReachNext(s2, AgentDisconnect(0), Away(Unknown, false, [], false), policy);
  }

  // -------------------------------------------------------------------------
  // What a recon may name as ended
  // -------------------------------------------------------------------------

  // The process ends while the agent is away, its recon is handled, and the connection drops again
  // before the acknowledgement: the daemon has the job COMPLETED, and the agent still has it listed.
  lemma ReachTwiceAway(policy: Policy)
    ensures Reachable(Away(Completed, true, [Entry(1, Done(true))], false), policy)
  {
    var live, es := [Entry(1, Live)], [Entry(1, Done(true))];
    ReachFirstStart(policy);
    ReachAway(live, policy);
    var a := Away(Unknown, false, live, false);
    assert live[0 := Entry(1, Done(true))] == es;
    ReachNext(a, ProcessExit(0, true, true), Away(Unknown, false, es, false), policy);
    ReachRecon(Unknown, false, es, false, policy);
    ReachReconHandled(policy);
  }

  lemma ReachReconHandled(policy: Policy)
    requires var es := [Entry(1, Done(true))];
             Reachable(System(Alone(Unknown, false), true, true, true, true, true, es, [], [Recon(es)]), policy)
    ensures Reachable(Away(Completed, true, [Entry(1, Done(true))], false), policy)
  {
    hide Reachable;
    var es := [Entry(1, Done(true))];
    var s3 := System(Alone(Unknown, false), true, true, true, true, true, es, [], [Recon(es)]);
    var s4 := s3.(jobs := Alone(Completed, false), recon := false, up := [], down := [ReconComplete]);
    assert es[1..] == [] && ReconAll(Alone(Unknown, false), es) == Alone(Completed, false) by {
      assert Alone(Unknown, false)[1 := Job(Completed, false, false)] == Alone(Completed, false);
    }
    ReachNext(s3, DaemonRecv, s4, policy);
    var s5 := s4.(agentUp := false, down := []);
    ReachNext(s4, AgentDisconnect(0), s5, policy);
    assert MarkUnknown(s5.jobs) == s5.jobs;
    ReachNext(s5, DaemonDisconnect(0), Away(Completed, true, es, false), policy);
  }

  // The agent comes back while the table holds the given jobs.
  lemma ReachReconWith(jobs: map<JobId, Job>, es: seq<Entry>, policy: Policy)
    requires Reachable(System(jobs, false, false, false, false, true, es, [], []), policy) && NoEnding(es)
    ensures Reachable(System(jobs, true, true, true, true, true, es, [], [Recon(es)]), policy)
  {
    var a := System(jobs, false, false, false, false, true, es, [], []);
    var s1 := a.(daemonUp := true, agentUp := true, up := [Login]);
    ReachNext(a, AgentConnect, s1, policy);
    var s2 := s1.(loggedIn := true, recon := true, up := [], down := [ReconReq]);
    ReachNext(s1, DaemonRecv, s2, policy);
    var s3 := s2.(inRecon := true, up := [Recon(es)], down := []);
    ReachNext(s2, AgentRecv(true), s3, policy);
  }

  // A recon that names a job as ended can find it in any state a user can give a finished job: waiting,
  // in particular DEFERRED, deleted, or removed from the table.
  lemma ReconCanNameAnyAsEnded(st: JobState, policy: Policy)
    requires Waiting(st) || st == NoState
    ensures var es, jobs := [Entry(1, Done(true))], map[1 := Job(st, false, st == NoState)];
            Reachable(System(jobs, true, true, true, true, true, es, [], [Recon(es)]), policy)
    ensures var es := [Entry(1, Done(true))];
            st == NoState ==> Reachable(System(map[], true, true, true, true, true, es, [], [Recon(es)]), policy)
  {
    var es, jobs := [Entry(1, Done(true))], map[1 := Job(st, false, st == NoState)];
    ReachTwiceAway(policy);
    var a := Away(Completed, true, es, false);
    var b := System(jobs, false, false, false, false, true, es, [], []);
    assert a.jobs[1 := Job(st, false, st == NoState)] == jobs;
    ReachNext(a, if st == NoState then DeleteJob(1) else ModJob(1, st), b, policy);
    ReachReconWith(jobs, es, policy);
    if st == NoState {
      assert jobs - {1} == map[];
      ReachNext(b, CleanupJob(1), b.(jobs := map[]), policy);
      ReachReconWith(map[], es, policy);
    }
  }

  // -------------------------------------------------------------------------
  // Two processes for one job
  // -------------------------------------------------------------------------

  lemma EndingStep(es: seq<Entry>, i: nat, es': seq<Entry>, policy: Policy)
    requires i < |es| && !es[i].proc.Done? && es' == es[i := es[i].(proc := Ending)]
    ensures var s := Linked(Running, false, es, [], []); var e := ProcessExit(i, true, false);
            Enabled(s, e, policy) && Apply(s, e) == Linked(Running, false, es', [], [])
  {
  }

  lemma UserSteps(es: seq<Entry>)
    ensures var s := Linked(Unknown, false, es, [], []); var e := ResolveUnknown(1, Pending);
            Enabled(s, e, ResolveAny) && Apply(s, e) == Linked(Pending, false, es, [], [])
    ensures var s := Linked(Completed, false, es, [], []); var e := ModJob(1, Pending);
            Enabled(s, e, ResolveAny) && Apply(s, e) == Linked(Pending, false, es, [], [])
  {
    assert Alone(Unknown, false)[1 := Job(Pending, false, false)] == Alone(Pending, false);
    assert Alone(Completed, false)[1 := Job(Pending, false, false)] == Alone(Pending, false);
  }

  // The old process's exit status arrives and is taken for the new one's.
  lemma ReachStaleCompletion()
    requires Reachable(Linked(Running, false, [Entry(1, Live), Entry(1, Ending)], [], []), ResolveAny)
    ensures Reachable(Linked(Completed, false, [Entry(1, Live)], [], []), ResolveAny)
  {
    var es := [Entry(1, Live), Entry(1, Ending)];
    var s := Linked(Running, false, es, [], []);
    var s1 := Linked(Running, false, [Entry(1, Live)], [], [JobCompleted(1, true)]);
    assert Apply(s, ProcessExit(1, true, true)) == s1 by { assert es[..1] + es[2..] == [Entry(1, Live)]; }
    ReachNext(s, ProcessExit(1, true, true), s1, ResolveAny);
    ReportStep(Running, false, [Entry(1, Live)], JobCompleted(1, true), Completed, ResolveAny);
    ReachNext(s1, DaemonRecv, Linked(Completed, false, [Entry(1, Live)], [], []), ResolveAny);
  }

  lemma ReachRestartBehindExit()
    ensures Reachable(Linked(Pending, false, [Entry(1, Ending)], [], []), ResolveAny)
  {
    var gone := [Entry(1, Ending)];
    ReachFirstStart(ResolveAny);
    EndingStep([Entry(1, Live)], 0, gone, ResolveAny);
    ReachNext(Linked(Running, false, [Entry(1, Live)], [], []), ProcessExit(0, true, false),
              Linked(Running, false, gone, [], []), ResolveAny);
    ReachAway(gone, ResolveAny);
    ReachLinked(Unknown, false, gone, false, ResolveAny);
    UserSteps(gone);
    ReachNext(Linked(Unknown, false, gone, [], []), ResolveUnknown(1, Pending), Linked(Pending, false, gone, [], []), ResolveAny);
  }

  // Restarting an UNKNOWN job whose old process has ended without its exit status having been read
  // ends in two live processes for one job.
  lemma ResolvingFreelyDoublesProcess()
    ensures Reachable(Linked(Running, false, [Entry(1, Live), Entry(1, Live)], [], []), ResolveAny)
  {
    var gone := [Entry(1, Ending)];
    ReachRestartBehindExit();
    ReachStarted(gone, ResolveAny);
    assert [Entry(1, Live)] + gone == [Entry(1, Live), Entry(1, Ending)];
    ReachStaleCompletion();
    var es := [Entry(1, Live)];
    UserSteps(es);
    ReachNext(Linked(Completed, false, es, [], []), ModJob(1, Pending), Linked(Pending, false, es, [], []), ResolveAny);
    ReachStarted(es, ResolveAny);
    assert [Entry(1, Live)] + es == [Entry(1, Live), Entry(1, Live)];
  }
}
