/**
 Reports that get lost.

 The agent forgets every finished process when the daemon acknowledges a recon, including one that
 finished after the recon was written: the daemon then holds the job RUNNING for good. This module
 says exactly which ends of processes are lost so. A start or a completion can also go down with the
 connection, which leaves the job UNKNOWN for good; that is the subject of ProtocolCover.
 */
module ProtocolLoss {
  import opened JobStates
  import opened Protocol

  // The daemon waits for a report about this job.
  predicate Owed(s: System, j: JobId) {
    j in s.jobs && (s.jobs[j].started || s.jobs[j].state == Running)
  }

  // Something exists that will still produce that report.
  predicate Accounted(s: System, j: JobId) {
    StartJob(j) in s.down || HasProcess(s.entries, j) || HasDone(s.entries, j) || HasCompletion(s.up, j)
  }

  // The process of this list entry ends while a recon that names it alive is on its way, or after the
  // daemon has taken the job for running from it and before the agent has read the acknowledgement.
  predicate NamedAlive(s: System, i: nat) {
    && i < |s.entries| && s.daemonUp && s.agentUp
    && ((ReconPhase(s) && Entry(s.entries[i].job, Live) in s.up[|s.up| - 1].items) || (CompletePhase(s) && Owed(s, s.entries[i].job)))
  }

  predicate ReapsNamedAlive(s: System, e: Event) {
    e.ProcessExit? && e.reported && NamedAlive(s, e.index)
  }

  predicate AccountInv(s: System, j: JobId) {
    && (!s.daemonUp ==> !Owed(s, j))
    && (s.daemonUp && !Ready(s) ==> !Owed(s, j))
    && (s.daemonUp && s.agentUp && Owed(s, j) ==> Accounted(s, j))
    && (s.daemonUp && s.agentUp && ReconPhase(s) ==> ReconCovers(s, s.up[|s.up| - 1].items, j))
    && (s.daemonUp && s.agentUp && CompletePhase(s) && HasDone(s.entries, j) && Owed(s, j) ==>
          s.jobs[j].state != Running && StartJob(j) in s.down)
  }

  predicate ReconCovers(s: System, items: seq<Entry>, j: JobId) {
    && OneEntry(items, j)
    && (Entry(j, Live) in items ==> HasProcess(s.entries, j))
    && (HasDone(s.entries, j) ==> Entry(j, Live) !in items)
  }

  predicate LossFreeRun(s: System, events: seq<Event>, policy: Policy)
    requires IsRun(s, events, policy)
    decreases events
  {
    events == [] || (!ReapsNamedAlive(s, events[0]) && LossFreeRun(Apply(s, events[0]), events[1..], policy))
  }

  // -------------------------------------------------------------------------
  // Preservation
  // -------------------------------------------------------------------------

  lemma UserStepAccount(s: System, e: Event, j: JobId, policy: Policy)
    requires SessionInv(s) && JobInv(s, j, policy) && AccountInv(s, j) && Enabled(s, e, policy)
    requires e.AddJob? || e.ModJob? || e.DeleteJob? || e.CleanupJob? || e.ResolveUnknown? || e.SendStart?
    ensures AccountInv(Apply(s, e), j)
  {
  }

  lemma ConnectionAccount(s: System, e: Event, j: JobId, policy: Policy)
    requires SessionInv(s) && JobInv(s, j, policy) && AccountInv(s, j) && Enabled(s, e, policy)
    requires e.DaemonDisconnect? || e.AgentDisconnect? || e.AgentConnect?
    ensures AccountInv(Apply(s, e), j)
  {
  }

  lemma {:induction false} ReconAllFinishes(jobs: map<JobId, Job>, items: seq<Entry>, j: JobId)
    requires OneEntry(items, j)
    ensures j in jobs && HasDone(items, j) ==>
              j in ReconAll(jobs, items) && ReconAll(jobs, items)[j].state in {Completed, Exited}
    ensures j in jobs && (forall i :: 0 <= i < |items| ==> items[i].job != j) ==>
              j in ReconAll(jobs, items) && ReconAll(jobs, items)[j] == jobs[j]
  {
    if items != [] {
      ReconAllFinishes(ReconOne(jobs, items[0]), items[1..], j);
      assert items[0].job == j ==> forall i :: 0 <= i < |items[1..]| ==> items[1..][i].job != j;
    }
  }

  lemma DaemonReconAccount(s: System, j: JobId, policy: Policy)
    requires SessionInv(s) && JobInv(s, j, policy) && AccountInv(s, j) && Enabled(s, DaemonRecv, policy)
    requires s.up[0].Recon?
    ensures AccountInv(Apply(s, DaemonRecv), j)
  {
    assert |s.up| == 1;
    ReconAllJob(s.jobs, s.up[0].items, j);
    if s.agentUp { ReconAllFinishes(s.jobs, s.up[0].items, j); }
    ReconMakesRunning(s.jobs, s.up[0].items, j);
  }

  lemma {:induction false} ReconMakesRunning(jobs: map<JobId, Job>, items: seq<Entry>, j: JobId)
    ensures j in ReconAll(jobs, items) && ReconAll(jobs, items)[j].state == Running ==>
              (j in jobs && jobs[j].state == Running) || Entry(j, Live) in items
  {
    if items != [] {
      ReconMakesRunning(ReconOne(jobs, items[0]), items[1..], j);
    }
  }

  lemma DaemonLoginAccount(s: System, j: JobId, policy: Policy)
    requires SessionInv(s) && JobInv(s, j, policy) && AccountInv(s, j) && Enabled(s, DaemonRecv, policy)
    requires s.up[0].Login?
    ensures AccountInv(Apply(s, DaemonRecv), j)
  {
    UpTail(s.up, j);
    assert JobCompleted(j, true) in s.up ==> JobCompleted(j, true) in s.up[1..];
    assert JobCompleted(j, false) in s.up ==> JobCompleted(j, false) in s.up[1..];
  }

  lemma DaemonReportAccount(s: System, j: JobId, policy: Policy)
    requires SessionInv(s) && JobInv(s, j, policy) && AccountInv(s, j) && Enabled(s, DaemonRecv, policy)
    requires !s.up[0].Recon? && !s.up[0].Login?
    ensures AccountInv(Apply(s, DaemonRecv), j)
  {
    UpTail(s.up, j);
    var s' := Apply(s, DaemonRecv);
    assert EndsInRecon(s'.up) ==> EndsInRecon(s.up) && s'.up[|s'.up| - 1] == s.up[|s.up| - 1];
    assert s'.daemonUp && s'.agentUp && ReconPhase(s') ==> ReconPhase(s);
  }

  lemma AgentRecvAccount(s: System, spawned: bool, j: JobId, policy: Policy)
    requires SessionInv(s) && JobInv(s, j, policy) && AccountInv(s, j) && Enabled(s, AgentRecv(spawned), policy)
    ensures AccountInv(Apply(s, AgentRecv(spawned)), j)
  {
    DropDoneJob(s.entries, j);
    if s.down[0].StartJob? { AgentStartAccount(s, spawned, j, policy); }
  }

  lemma AgentStartAccount(s: System, spawned: bool, j: JobId, policy: Policy)
    requires SessionInv(s) && JobInv(s, j, policy) && AccountInv(s, j) && Enabled(s, AgentRecv(spawned), policy)
    requires s.down[0].StartJob?
    ensures AccountInv(Apply(s, AgentRecv(spawned)), j)
  {
    var s' := Apply(s, AgentRecv(spawned));
    assert StartJob(j) in s.down ==> StartJob(j) in s'.down || s.down[0] == StartJob(j);
    assert forall x :: x in s.entries ==> x in s'.entries;
    if spawned { assert s'.entries[0] == Entry(s.down[0].job, Live) && s'.entries[0] in s'.entries; }
    if !spawned && s.daemonUp { assert s'.up[|s.up|] == JobCompleted(s.down[0].job, false); }
  }

  lemma ProcessExitAccount(s: System, i: nat, ok: bool, reported: bool, j: JobId, policy: Policy)
    requires SessionInv(s) && JobInv(s, j, policy) && AccountInv(s, j)
    requires Enabled(s, ProcessExit(i, ok, reported), policy) && !ReapsNamedAlive(s, ProcessExit(i, ok, reported))
    ensures AccountInv(Apply(s, ProcessExit(i, ok, reported)), j)
  {
    var es := s.entries;
    var es' := Apply(s, ProcessExit(i, ok, reported)).entries;
    if |es'| == |es| {
      ReplacedEntry(es, i, es'[i].proc, j);
      assert es'[i] in es';
    } else {
      RemovedEntry(es, i, j);
    }
    if es[i].job != j {
      forall pr | Entry(j, pr) in es ensures Entry(j, pr) in es' { OtherEntriesStay(es, i, Entry(j, pr), if |es'| == |es| then es'[i] else es[i]); }
    }
  }

  lemma AccountKept(s: System, e: Event, j: JobId, policy: Policy)
    requires SessionInv(s) && JobInv(s, j, policy) && AccountInv(s, j) && Enabled(s, e, policy) && !ReapsNamedAlive(s, e)
    ensures AccountInv(Apply(s, e), j)
  {
    match e
    case DaemonRecv =>
      if s.up[0].Recon? { DaemonReconAccount(s, j, policy); }
      else if s.up[0].Login? { DaemonLoginAccount(s, j, policy); } else { DaemonReportAccount(s, j, policy); }
    case AgentRecv(spawned) => AgentRecvAccount(s, spawned, j, policy);
    case ProcessExit(i, ok, reported) => ProcessExitAccount(s, i, ok, reported, j, policy);
    case DaemonDisconnect(_) => ConnectionAccount(s, e, j, policy);
    case AgentDisconnect(_) => ConnectionAccount(s, e, j, policy);
    case AgentConnect => ConnectionAccount(s, e, j, policy);
    case _ => UserStepAccount(s, e, j, policy);
  }

  lemma {:induction false} LossFreeRunKept(s: System, events: seq<Event>, j: JobId, policy: Policy)
    requires policy != ResolveAny
    requires Inv(s, policy) && AccountInv(s, j) && IsRun(s, events, policy) && LossFreeRun(s, events, policy)
    ensures AccountInv(Run(s, events, policy), j)
    decreases events
  {
    if events != [] {
      AccountKept(s, events[0], j, policy);
      RunKept(s, [events[0]], policy);
      assert Run(s, [events[0]], policy) == Apply(s, events[0]);
      LossFreeRunKept(Apply(s, events[0]), events[1..], j, policy);
    }
  }

  // While both sides are connected, every job the daemon believes started or running still has a
  // start message, an agent list entry or a completion on its way, in all runs in which no process
  // that a recon names alive is reaped before the recon's acknowledgement.
  lemma NoCompletionLost(s: System, events: seq<Event>, j: JobId, policy: Policy)
    requires policy != ResolveAny
    requires Initial(s) && IsRun(s, events, policy) && LossFreeRun(s, events, policy)
    ensures var t := Run(s, events, policy); t.daemonUp && t.agentUp && Owed(t, j) ==> Accounted(t, j)
  {
    LossFreeRunKept(s, events, j, policy);
  }

  // -------------------------------------------------------------------------
  // Nothing more can be spared
  // -------------------------------------------------------------------------

  // A recon that the daemon can handle is on its way, or its acknowledgement is.
  predicate InWindow(s: System) {
    s.daemonUp && s.agentUp && (CompletePhase(s) || (ReconPhase(s) && !FatalRecon(s.jobs, s.up[|s.up| - 1])))
  }

  // The daemon reads all that is on its way to it, and then the agent the acknowledgement.
  function Reads(n: nat): seq<Event> {
    if n == 0 then [AgentRecv(true)] else [DaemonRecv] + Reads(n - 1)
  }

  lemma ReadOne(s: System, policy: Policy)
    requires SessionInv(s) && InWindow(s) && s.up != []
    ensures Enabled(s, DaemonRecv, policy)
    ensures var t := Apply(s, DaemonRecv); InWindow(t) && t.up == s.up[1..] && t.entries == s.entries
    ensures var t := Apply(s, DaemonRecv); ReconPhase(t) ==> t.up[|t.up| - 1] == s.up[|s.up| - 1]
  {
    if |s.up| > 1 {
      assert s.up[..|s.up| - 1][0] == s.up[0] && s.up[..|s.up| - 1][1..] == s.up[1..][..|s.up| - 2];
      QuietTail(s.up[..|s.up| - 1]);
    } else {
      assert s.up[1..] == [];
    }
  }

  lemma {:induction false} WindowCloses(s: System, policy: Policy)
    requires policy != ResolveAny && Inv(s, policy) && InWindow(s)
    ensures IsRun(s, Reads(|s.up|), policy) && LossFreeRun(s, Reads(|s.up|), policy)
    ensures Run(s, Reads(|s.up|), policy).daemonUp && Run(s, Reads(|s.up|), policy).agentUp
    decreases |s.up|
  {
    if s.up == [] {
      var t := Apply(s, AgentRecv(true));
      Chain(s, AgentRecv(true), [], policy);
      assert Reads(0) == [AgentRecv(true)] + [];
    } else {
      var t := Apply(s, DaemonRecv);
      ReadOne(s, policy);
      StepKept(s, DaemonRecv, policy);
      hide Inv, InWindow, Apply;
      WindowCloses(t, policy);
      Chain(s, DaemonRecv, Reads(|t.up|), policy);
      assert Reads(|s.up|)[1..] == Reads(|t.up|);
    }
  }

  lemma StepKept(s: System, e: Event, policy: Policy)
    requires policy != ResolveAny && Inv(s, policy) && Enabled(s, e, policy)
    ensures Inv(Apply(s, e), policy)
  {
    RunKept(s, [e], policy);
    assert Run(s, [e], policy) == Apply(s, e);
  }

  // The process has been reaped, and the recon names the job alive or has already done so.
  predicate Doomed(s: System, j: JobId) {
    && HasDone(s.entries, j)
    && (ReconPhase(s) ==> OneEntry(s.up[|s.up| - 1].items, j) && Entry(j, Live) in s.up[|s.up| - 1].items)
    && (!ReconPhase(s) ==> Owed(s, j) && StartJob(j) !in s.down)
  }

  lemma {:induction false} ReconAllRuns(jobs: map<JobId, Job>, items: seq<Entry>, j: JobId)
    requires OneEntry(items, j) && Entry(j, Live) in items && j in jobs
    ensures j in ReconAll(jobs, items) && ReconAll(jobs, items)[j].state == Running
  {
    if items[0].job == j {
      ReconAllFinishes(ReconOne(jobs, items[0]), items[1..], j);
      assert forall i :: 0 <= i < |items[1..]| ==> items[1..][i].job != j;
    } else {
      ReconAllRuns(ReconOne(jobs, items[0]), items[1..], j);
    }
  }

  lemma DoomedStays(s: System, j: JobId, policy: Policy)
    requires SessionInv(s) && JobInv(s, j, policy) && InWindow(s) && s.up != [] && Doomed(s, j)
    ensures Enabled(s, DaemonRecv, policy) && Doomed(Apply(s, DaemonRecv), j)
  {
    ReadOne(s, policy);
    var items := s.up[|s.up| - 1].items;
    assert Active(s.jobs, j) && !HasCompletion(s.up, j);
    if |s.up| == 1 { ReconAllRuns(s.jobs, items, j); } else { assert s.up[0] in s.up; }
  }

  lemma DoomedEnds(s: System, j: JobId, policy: Policy)
    requires SessionInv(s) && JobInv(s, j, policy) && InWindow(s) && s.up == [] && Doomed(s, j)
    ensures var t := Apply(s, AgentRecv(true)); Owed(t, j) && !Accounted(t, j)
  {
    DropDoneJob(s.entries, j);
    NoProcessBesideDone(s.entries, j);
  }

  lemma {:induction false} DoomedIsLost(s: System, j: JobId, policy: Policy)
    requires policy != ResolveAny && Inv(s, policy) && InWindow(s) && Doomed(s, j)
    requires IsRun(s, Reads(|s.up|), policy)
    ensures var t := Run(s, Reads(|s.up|), policy); Owed(t, j) && !Accounted(t, j)
    decreases |s.up|
  {
    assert JobInv(s, j, policy);
    if s.up == [] {
      DoomedEnds(s, j, policy);
      Chain(s, AgentRecv(true), [], policy);
      assert Reads(0) == [AgentRecv(true)] + [];
    } else {
      ReadOne(s, policy);
      StepKept(s, DaemonRecv, policy);
      DoomedStays(s, j, policy);
      hide Inv, InWindow, Apply, Doomed, JobInv;
      assert Reads(|s.up|)[1..] == Reads(|s.up[1..]|);
      DoomedIsLost(Apply(s, DaemonRecv), j, policy);
    }
  }

  lemma ReapDooms(s: System, i: nat, ok: bool, policy: Policy)
    requires Inv(s, policy) && InWindow(s) && Enabled(s, ProcessExit(i, ok, true), policy)
    requires AccountInv(s, s.entries[i].job) && NamedAlive(s, i)
    ensures Doomed(Apply(s, ProcessExit(i, ok, true)), s.entries[i].job)
  {
    var j := s.entries[i].job;
    assert JobInv(s, j, policy) && s.entries[i] in s.entries && HasProcess(s.entries, j);
    var t := Apply(s, ProcessExit(i, ok, true));
    assert t.entries[i] == Entry(j, Done(ok)) && t.entries[i] in t.entries;
  }

  lemma ReapIsLostIff(s: System, i: nat, ok: bool, policy: Policy)
    requires policy != ResolveAny && Inv(s, policy) && InWindow(s)
    requires Enabled(s, ProcessExit(i, ok, true), policy) && AccountInv(s, s.entries[i].job)
    ensures var events := [ProcessExit(i, ok, true)] + Reads(|s.up|);
            && IsRun(s, events, policy)
            && (Owed(Run(s, events, policy), s.entries[i].job) && !Accounted(Run(s, events, policy), s.entries[i].job)
                <==> NamedAlive(s, i))
  {
    var j, e := s.entries[i].job, ProcessExit(i, ok, true);
    var t := Apply(s, e);
    assert InWindow(t) && t.up == s.up;
    if NamedAlive(s, i) { ReapDooms(s, i, ok, policy); }
    StepKept(s, e, policy);
    WindowCloses(t, policy);
    Chain(s, e, Reads(|s.up|), policy);
    hide InWindow, Apply, Enabled;
    if NamedAlive(s, i) {
      DoomedIsLost(t, j, policy);
    } else {
      assert ([e] + Reads(|s.up|))[1..] == Reads(|t.up|);
      LossFreeRunKept(s, [e] + Reads(|s.up|), j, policy);
    }
  }

  // After any run without such a loss: when a process is reaped between a recon and its acknowledgement
  // and both are then read, the end of the process is lost for good if and only if the recon named it
  // alive.
  lemma ReapInReconIsLostIff(start: System, before: seq<Event>, i: nat, ok: bool, policy: Policy)
    requires policy != ResolveAny && Initial(start) && IsRun(start, before, policy) && LossFreeRun(start, before, policy)
    requires var s := Run(start, before, policy); InWindow(s) && Enabled(s, ProcessExit(i, ok, true), policy)
    ensures var s := Run(start, before, policy);
            var events := [ProcessExit(i, ok, true)] + Reads(|s.up|);
            && IsRun(s, events, policy)
            && (Owed(Run(s, events, policy), s.entries[i].job) && !Accounted(Run(s, events, policy), s.entries[i].job)
                <==> NamedAlive(s, i))
  {
    var s := Run(start, before, policy);
    RunKept(start, before, policy);
    LossFreeRunKept(start, before, s.entries[i].job, policy);
    hide Run, IsRun, LossFreeRun, InWindow, Inv, AccountInv, Apply;
    ReapIsLostIff(s, i, ok, policy);
  }

  lemma NoProcessBesideDone(es: seq<Entry>, j: JobId)
    requires OneEntry(es, j) && HasDone(es, j)
    ensures !HasProcess(es, j)
  {
    var i :| 0 <= i < |es| && es[i].job == j && es[i].proc.Done?;
    forall k | 0 <= k < |es| ensures es[k] != Entry(j, Live) && es[k] != Entry(j, Ending) { }
  }

  lemma Chain(s: System, e: Event, rest: seq<Event>, policy: Policy)
    requires Enabled(s, e, policy) && IsRun(Apply(s, e), rest, policy)
    ensures IsRun(s, [e] + rest, policy) && Run(s, [e] + rest, policy) == Run(Apply(s, e), rest, policy)
  {
    assert ([e] + rest)[1..] == rest;
  }

  lemma {:induction false} Extend(s: System, events: seq<Event>, e: Event, policy: Policy)
    requires IsRun(s, events, policy) && Enabled(Run(s, events, policy), e, policy)
    ensures IsRun(s, events + [e], policy) && Run(s, events + [e], policy) == Apply(Run(s, events, policy), e)
    decreases events
  {
    if events == [] {
      assert events + [e] == [e];
      Chain(s, e, [], policy);
    } else {
      Extend(Apply(s, events[0]), events[1..], e, policy);
      Chain(s, events[0], events[1..] + [e], policy);
      assert [events[0]] + (events[1..] + [e]) == events + [e];
    }
  }
}
