/**
 Which steps leave a job behind of which nothing is left anywhere.

 A job is covered when the daemon takes it for sent, running or of unknown fate only as long as a start
 message, a list entry of the agent or a completion on its way can still bear it out.
 */
module ProtocolCover {
  import opened Protocol
  import opened ProtocolLoss

  predicate Covered(s: System, j: JobId) {
    Active(s.jobs, j) ==> Accounted(s, j)
  }

  // The step drops the last trace of the job: a start is written to an agent that is gone, or is still
  // unread when a connection closes; a completion is written to a daemon that is gone, or is still unread
  // when a connection closes; or an acknowledgement makes the agent forget an end that was not reported.
  predicate Drops(s: System, e: Event, j: JobId)
    requires Enabled(s, e, ResolveAny)
  {
    match e
    case SendStart(k) => k == j && !s.agentUp && !HasDone(s.entries, j)
    case AgentRecv(spawned) =>
      || (s.down[0] == StartJob(j) && !spawned && !s.daemonUp && !HasDone(s.entries, j))
      || (s.down[0] == ReconComplete && HasDone(s.entries, j) && Active(s.jobs, j) && StartJob(j) !in s.down)
    case ProcessExit(i, _, reported) => s.entries[i].job == j && reported && s.agentUp && !s.inRecon && !s.daemonUp
    case DaemonDisconnect(kept) =>
      !HasDone(s.entries, j) && (HasCompletion(s.up, j) || (StartJob(j) in s.down && StartJob(j) !in s.down[..kept]))
    case AgentDisconnect(kept) =>
      !HasDone(s.entries, j) && (StartJob(j) in s.down || (HasCompletion(s.up, j) && !HasCompletion(s.up[..kept], j)))
    case _ => false
  }

  lemma UserCover(s: System, e: Event, j: JobId, policy: Policy)
    requires SessionInv(s) && JobInv(s, j, policy) && Covered(s, j) && Enabled(s, e, policy)
    requires e.AddJob? || e.ModJob? || e.DeleteJob? || e.CleanupJob? || e.ResolveUnknown? || e.SendStart?
    ensures Covered(Apply(s, e), j) <==> !Drops(s, e, j)
  {
  }

  lemma ConnectionCover(s: System, e: Event, j: JobId, policy: Policy)
    requires SessionInv(s) && JobInv(s, j, policy) && Covered(s, j) && Enabled(s, e, policy)
    requires e.DaemonDisconnect? || e.AgentDisconnect? || e.AgentConnect?
    ensures Covered(Apply(s, e), j) <==> !Drops(s, e, j)
  {
  }

  lemma DaemonRecvCover(s: System, j: JobId, policy: Policy)
    requires SessionInv(s) && JobInv(s, j, policy) && Covered(s, j) && Enabled(s, DaemonRecv, policy)
    ensures Covered(Apply(s, DaemonRecv), j)
  {
    assert s.up[0] in s.up && (s.up[0] == JobStarted(j) ==> Active(s.jobs, j));
    if s.up[0].Recon? {
      ReconCover(s, s.up[0].items, j, policy);
    } else {
      hide SessionInv, JobInv, Covered, Apply;
      ReportCover(s, j, policy);
    }
  }

  lemma ReportCover(s: System, j: JobId, policy: Policy)
    requires Covered(s, j) && Enabled(s, DaemonRecv, policy) && !s.up[0].Recon? && (s.up[0] == JobStarted(j) ==> Active(s.jobs, j))
    ensures Covered(Apply(s, DaemonRecv), j)
  {
    CompletionTail(s.up, j);
    hide HasCompletion, HasProcess, HasDone;
  }

  lemma CompletionTail(up: seq<Up>, j: JobId)
    requires up != []
    ensures HasCompletion(up, j) ==> HasCompletion(up[1..], j) || CompletionOf(up[0], j)
  {
  }

  lemma ReconCover(s: System, items: seq<Entry>, j: JobId, policy: Policy)
    requires SessionInv(s) && JobInv(s, j, policy) && Covered(s, j) && Enabled(s, DaemonRecv, policy) && s.up[0] == Recon(items)
    ensures Covered(Apply(s, DaemonRecv), j)
  {
    ReconAllJob(s.jobs, items, j);
    assert |s.up| == 1 && s.up[|s.up| - 1] == s.up[0];
    assert ReconItemInv(s, items, j, policy);
  }

  lemma AgentRecvCover(s: System, spawned: bool, j: JobId, policy: Policy)
    requires SessionInv(s) && JobInv(s, j, policy) && Covered(s, j) && Enabled(s, AgentRecv(spawned), policy)
    ensures Covered(Apply(s, AgentRecv(spawned)), j) <==> !Drops(s, AgentRecv(spawned), j)
  {
    if s.down[0].StartJob? {
      StartCover(s, spawned, j, policy);
    } else {
      DropDoneJob(s.entries, j);
      var s' := Apply(s, AgentRecv(spawned));
      assert StartJob(j) in s.down ==> StartJob(j) in s'.down;
      if s.down[0].ReconComplete? && HasDone(s.entries, j) { NoProcessBesideDone(s.entries, j); }
    }
  }

  lemma StartCover(s: System, spawned: bool, j: JobId, policy: Policy)
    requires JobInv(s, j, policy) && Covered(s, j) && Enabled(s, AgentRecv(spawned), policy) && s.down[0].StartJob?
    ensures Covered(Apply(s, AgentRecv(spawned)), j) <==> !Drops(s, AgentRecv(spawned), j)
  {
    var s', k := Apply(s, AgentRecv(spawned)), s.down[0].job;
    assert StartJob(j) in s.down ==> StartJob(j) in s'.down || s.down[0] == StartJob(j);
    assert forall x :: x in s.entries ==> x in s'.entries;
    if spawned { assert s'.entries[0] == Entry(k, Live) && s'.entries[0] in s'.entries; }
    if !spawned && s.daemonUp { assert s'.up[|s.up|] == JobCompleted(k, false); }
  }

  lemma ProcessExitCover(s: System, i: nat, ok: bool, reported: bool, j: JobId, policy: Policy)
    requires SessionInv(s) && JobInv(s, j, policy) && Covered(s, j) && Enabled(s, ProcessExit(i, ok, reported), policy)
    ensures Covered(Apply(s, ProcessExit(i, ok, reported)), j) <==> !Drops(s, ProcessExit(i, ok, reported), j)
  {
    var es := s.entries;
    var es' := Apply(s, ProcessExit(i, ok, reported)).entries;
    assert es[i] in es;
    if |es'| == |es| {
      ReplacedEntry(es, i, es'[i].proc, j);
      assert es'[i] in es';
    } else {
      RemovedEntry(es, i, j);
    }
    if es[i].job != j {
      forall pr | Entry(j, pr) in es ensures Entry(j, pr) in es' { OtherEntriesStay(es, i, Entry(j, pr), if |es'| == |es| then es'[i] else es[i]); }
    }
  }

  // Every step keeps a job covered if and only if it does not drop its last trace.
  lemma StepCoversIff(s: System, e: Event, j: JobId, policy: Policy)
    requires SessionInv(s) && JobInv(s, j, policy) && Covered(s, j) && Enabled(s, e, policy)
    ensures Covered(Apply(s, e), j) <==> !Drops(s, e, j)
  {
    hide SessionInv, JobInv, Covered, Apply;
    match e
    case DaemonRecv => DaemonRecvCover(s, j, policy);
    case AgentRecv(spawned) => AgentRecvCover(s, spawned, j, policy);
    case ProcessExit(i, ok, reported) => ProcessExitCover(s, i, ok, reported, j, policy);
    case DaemonDisconnect(_) => ConnectionCover(s, e, j, policy);
    case AgentDisconnect(_) => ConnectionCover(s, e, j, policy);
    case AgentConnect => ConnectionCover(s, e, j, policy);
    case _ => UserCover(s, e, j, policy);
  }

  predicate CoveredThroughout(s: System, events: seq<Event>, j: JobId, policy: Policy)
    requires IsRun(s, events, policy)
    decreases events
  {
    Covered(s, j) && (events == [] || CoveredThroughout(Apply(s, events[0]), events[1..], j, policy))
  }

  predicate DropFree(s: System, events: seq<Event>, j: JobId, policy: Policy)
    requires IsRun(s, events, policy)
    decreases events
  {
    events == [] || (!Drops(s, events[0], j) && DropFree(Apply(s, events[0]), events[1..], j, policy))
  }

  lemma {:induction false} RunCoversIff(s: System, events: seq<Event>, j: JobId, policy: Policy)
    requires policy != ResolveAny && Inv(s, policy) && IsRun(s, events, policy) && Covered(s, j)
    ensures CoveredThroughout(s, events, j, policy) <==> DropFree(s, events, j, policy)
    decreases events
  {
    if events != [] {
      assert JobInv(s, j, policy);
      StepCoversIff(s, events[0], j, policy);
      StepKept(s, events[0], policy);
      hide Inv, JobInv, SessionInv, Covered, Apply, Drops;
      if Covered(Apply(s, events[0]), j) { RunCoversIff(Apply(s, events[0]), events[1..], j, policy); }
      else if events[1..] != [] { assert !CoveredThroughout(Apply(s, events[0]), events[1..], j, policy); }
    }
  }

  // Over all runs: a job stays covered throughout if and only if no step drops its last trace.
  lemma CoveredInAllRunsIff(s: System, events: seq<Event>, j: JobId, policy: Policy)
    requires policy != ResolveAny && Initial(s) && IsRun(s, events, policy)
    ensures CoveredThroughout(s, events, j, policy) <==> DropFree(s, events, j, policy)
  {
    RunKept(s, [], policy);
    RunCoversIff(s, events, j, policy);
  }

  // -------------------------------------------------------------------------
  // A job that is not covered stays so
  // -------------------------------------------------------------------------

  lemma UserLost(s: System, e: Event, j: JobId, policy: Policy)
    requires SessionInv(s) && JobInv(s, j, policy) && !Covered(s, j) && Enabled(s, e, policy) && !(e.ResolveUnknown? && e.job == j)
    requires !e.DaemonRecv? && !e.AgentRecv? && !e.ProcessExit?
    ensures !Covered(Apply(s, e), j)
  {
  }

  lemma DaemonRecvLost(s: System, j: JobId, policy: Policy)
    requires SessionInv(s) && JobInv(s, j, policy) && !Covered(s, j) && Enabled(s, DaemonRecv, policy)
    ensures !Covered(Apply(s, DaemonRecv), j)
  {
    if s.up[0].Recon? {
      ReconAllJob(s.jobs, s.up[0].items, j);
      assert |s.up| == 1 && s.up[|s.up| - 1] == s.up[0];
    } else {
      ReportLost(s, j, policy);
    }
  }

  lemma ReportLost(s: System, j: JobId, policy: Policy)
    requires !Covered(s, j) && Enabled(s, DaemonRecv, policy) && !s.up[0].Recon?
    ensures !Covered(Apply(s, DaemonRecv), j)
  {
    assert s.up[0] in s.up && forall x :: x in s.up[1..] ==> x in s.up;
  }

  lemma AgentRecvLost(s: System, spawned: bool, j: JobId, policy: Policy)
    requires !Covered(s, j) && OneEntry(s.entries, j) && Enabled(s, AgentRecv(spawned), policy)
    ensures !Covered(Apply(s, AgentRecv(spawned)), j)
  {
    assert s.down[0] in s.down && s.down[0] != StartJob(j);
    match s.down[0]
    case StartJob(k) =>
      var s' := Apply(s, AgentRecv(spawned));
      assert forall x :: x in s'.entries ==> x in s.entries || x == Entry(k, Live);
      assert forall x :: x in s'.up ==> x in s.up || x == JobStarted(k) || x == JobCompleted(k, false);
    case ReconReq => ReconReqLost(s, spawned, j, policy);
    case ReconComplete => DropDoneJob(s.entries, j);
  }

  lemma ReconReqLost(s: System, spawned: bool, j: JobId, policy: Policy)
    requires !Covered(s, j) && Enabled(s, AgentRecv(spawned), policy) && s.down[0] == ReconReq
    ensures !Covered(Apply(s, AgentRecv(spawned)), j)
  {
    var s' := Apply(s, AgentRecv(spawned));
    assert forall x :: x in s'.up ==> x in s.up || x == Recon(s.entries);
  }

  lemma ProcessExitLost(s: System, i: nat, ok: bool, reported: bool, j: JobId, policy: Policy)
    requires !Covered(s, j) && OneEntry(s.entries, j) && Enabled(s, ProcessExit(i, ok, reported), policy)
    ensures !Covered(Apply(s, ProcessExit(i, ok, reported)), j)
  {
    assert s.entries[i] in s.entries && s.entries[i].job != j;
    var es' := Apply(s, ProcessExit(i, ok, reported)).entries;
    if |es'| == |s.entries| { ReplacedEntry(s.entries, i, es'[i].proc, j); }
    else { RemovedEntry(s.entries, i, j); }
  }

  predicate LeavesAlone(events: seq<Event>, j: JobId) {
    forall i :: 0 <= i < |events| && events[i].ResolveUnknown? ==> events[i].job != j
  }

  // A job of which nothing is left is reported no more: only a user can settle it.
  lemma {:induction false} LostForGood(s: System, events: seq<Event>, j: JobId, policy: Policy)
    requires policy != ResolveAny && Inv(s, policy) && IsRun(s, events, policy) && LeavesAlone(events, j)
    requires Active(s.jobs, j) && !Accounted(s, j)
    ensures Active(Run(s, events, policy).jobs, j) && !Accounted(Run(s, events, policy), j)
    decreases events
  {
    if events != [] {
      var e := events[0];
      assert JobInv(s, j, policy);
      if e.DaemonRecv? { DaemonRecvLost(s, j, policy); }
      else if e.AgentRecv? { AgentRecvLost(s, e.spawned, j, policy); }
      else if e.ProcessExit? { ProcessExitLost(s, e.index, e.ok, e.reported, j, policy); }
      else { UserLost(s, e, j, policy); }
      StepKept(s, e, policy);
      hide Inv, JobInv, SessionInv, Apply;
      LostForGood(Apply(s, e), events[1..], j, policy);
    }
  }
}
