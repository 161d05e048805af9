/**
 No resource is used beyond what there is of it, and what goes wrong with the start test, with recons
 and with deletions otherwise.
 */
module SchedCapacity {
  import opened Options
  import opened JobStates
  import opened Sequences
  import opened SchedState
  import opened SchedSteps
  import opened SchedRun
  import opened SchedResources

  // -------------------------------------------------------------------------
  // The invariant
  // -------------------------------------------------------------------------

  ghost predicate Within(s: Server, r: ResId) {
    r in s.resources ==> s.resources[r].inUse <= s.resources[r].count
  }

  predicate AllDistinct(s: Server) {
    forall id :: id in s.jobs ==> NoDuplicates(s.jobs[id].needs)
  }

  // Needs name a resource once, and no resource is reduced.
  predicate Fits(s: Server, e: Event) {
    match e
    case Add(_, r) => NoDuplicates(r.needs)
    case Modify(_, m) => m.needs.Some? ==> NoDuplicates(m.needs.value)
    case ChangeResource(r, count) => r in s.resources ==> count >= s.resources[r].count
    case _ => true
  }

  predicate ResourceRun(s: Server, events: seq<Event>, k: ResId)
    decreases events
  {
    events == [] || (MessageFits(s, events[0]) && Keeps(s, events[0], k) && Fits(s, events[0]) && ResourceRun(Apply(s, events[0]), events[1..], k))
  }

  // No more is used, and every job's needs are as before or name each resource once.
  ghost predicate Tame(s: Server, t: Server, r: ResId) {
    && (r in t.resources ==>
          r in s.resources && t.resources[r].inUse <= s.resources[r].inUse && t.resources[r].count >= s.resources[r].count)
    && (forall id :: id in t.jobs ==> NoDuplicates(t.jobs[id].needs) || (id in s.jobs && t.jobs[id].needs == s.jobs[id].needs))
  }

  lemma TameKeeps(s: Server, t: Server, r: ResId)
    requires Tame(s, t, r) && Within(s, r) && AllDistinct(s)
    ensures Within(t, r) && AllDistinct(t)
  {
  }

  lemma TameChain(s: Server, t: Server, u: Server, r: ResId)
    requires Tame(s, t, r) && Tame(t, u, r)
    ensures Tame(s, u, r)
  {
  }

  lemma {:induction false} DeallocateLowers(res: map<ResId, Resource>, needs: seq<Need>, r: ResId)
    requires NonNegative(needs) && r in res && res[r].inUse >= 0
    ensures r in Deallocate(res, needs) && Deallocate(res, needs)[r].inUse <= res[r].inUse && Deallocate(res, needs)[r].count == res[r].count
    decreases needs
  {
    if needs != [] { DeallocateLowers(Returned(res, needs[0]), needs[1..], r); }
  }

  // The resources are as they were, or the job's needs were given back.
  ghost predicate Lowered(s: Server, s1: Server, id: JobId) {
    id in s.jobs && (s1.resources == s.resources || s1.resources == Deallocate(s.resources, s.jobs[id].needs))
  }

  lemma LoweredTame(s: Server, s1: Server, id: JobId, r: ResId)
    requires TableInv(s) && AllNeedsOk(s, r) && Conserved(s, r) && Lowered(s, s1, id)
    ensures r in s1.resources ==>
              r in s.resources && s1.resources[r].inUse <= s.resources[r].inUse && s1.resources[r].count == s.resources[r].count
  {
    DeallocateKeys(s.resources, s.jobs[id].needs, r);
    if r in s.resources {
      SumAtLeast(s.order, s.jobs, id, r);
      assert NeedsOk(s.jobs[id], r);
      DeallocateLowers(s.resources, s.jobs[id].needs, r);
    }
  }

  lemma ChangeTame(s: Server, s1: Server, id: JobId, to: JobState, q: Option<QueueId>, dirty: bool, r: ResId)
    requires ResInv(s, r) && Edits(s, s1, id) && Lowered(s, s1, id) && (q.Some? ==> q.value in s.qstats)
    requires s1.jobs[id].needs == s.jobs[id].needs || NoDuplicates(s1.jobs[id].needs)
    ensures Known(s1, id) && Tame(s, ChangeJobState(s1, id, to, q, dirty), r)
  {
    EditsTable(s, s1, id);
    LoweredTame(s, s1, id, r);
    ChangeShape(s1, id, to, q, dirty);
    hide ChangeJobState, Deallocate, BaseInv, AllNeedsOk, Conserved;
  }

  lemma SameTame(s: Server, t: Server, r: ResId)
    requires forall id :: id in t.jobs ==> id in s.jobs && t.jobs[id].needs == s.jobs[id].needs
    requires r in t.resources ==> r in s.resources && t.resources[r].inUse == s.resources[r].inUse && t.resources[r].count >= s.resources[r].count
    ensures Tame(s, t, r)
  {
  }

  lemma AddTame(s: Server, id: JobId, r: Request, k: ResId)
    requires NoDuplicates(r.needs)
    ensures Tame(s, AddJob(s, id, r), k)
  {
    if !AddRefused(s, id, r) { ChangeShape(AddEntered(s, id, r), id, AddTarget(r), None, true); }
    hide ChangeJobState;
  }

  lemma ModTame(s: Server, id: JobId, m: Mod, k: ResId)
    requires ResInv(s, k) && Fits(s, Modify(id, m))
    ensures Tame(s, ModJob(s, id, m), k)
  {
    SameTame(s, s, k);
    hide ChangeJobState, Tame, ResInv, Deallocate, ModDirty, ModTarget, ModList;
    if !ModRefused(s, id, m) {
      ChangeTame(s, ModEdited(s, id, m), id, ModTarget(s.jobs[id], m), m.queue, ModDirty(s.jobs[id], m), k);
    }
  }

  lemma UserTame(s: Server, e: Event, k: ResId)
    requires ResInv(s, k) && Fits(s, e) && (e.Modify? || e.Delete? || e.Signal?)
    ensures Tame(s, Apply(s, e), k)
  {
    SameTame(s, s, k);
    assert TableInv(s);
    hide ChangeJobState, Tame, ResInv, TableInv, Deallocate, ModJob;
    match e
    case Modify(id, m) => ModTame(s, id, m, k);
    case Delete(id) =>
      if Known(s, id) && !s.jobs[id].deleted { ChangeTame(s, DeleteMarked(s, id), id, NoState, None, false, k); }
    case Signal(id) =>
      if Known(s, id) && !s.jobs[id].deleted && s.jobs[id].state == Unknown {
        ChangeTame(s, NeedsReturned(s, id), id, Exited, None, true, k);
      }
  }

  lemma ClearedTame(s: Server, id: JobId, k: ResId)
    requires id in s.jobs
    ensures Tame(s, ClearStarted(s, id), k)
  {
  }

  lemma ReportTame(s: Server, e: Event, k: ResId)
    requires ResInv(s, k) && (e.StartedMsg? || e.CompletedMsg?)
    ensures Tame(s, Apply(s, e), k)
  {
    SameTame(s, s, k);
    assert TableInv(s);
    hide ChangeJobState, Tame, ResInv, TableInv, Deallocate;
    if Known(s, e.id) {
      var s1 := if e.StartedMsg? then s else NeedsReturned(s, e.id);
      var to := if e.StartedMsg? then Running else FinalState(e.failed);
      ChangeTame(s, s1, e.id, to, None, true, k);
      ChangeShape(s1, e.id, to, None, true);
      var t := ChangeJobState(s1, e.id, to, None, true);
      assert Apply(s, e) == ClearStarted(t, e.id);
      hide NeedsReturned, Apply, ClearStarted;
      ClearedTame(t, e.id, k);
      TameChain(s, t, ClearStarted(t, e.id), k);
    }
  }

  // Loops that leave resources and needs alone.
  predicate SameNeeds(s: Server, t: Server) {
    t.resources == s.resources && t.jobs.Keys == s.jobs.Keys && forall id :: id in t.jobs ==> id in s.jobs && t.jobs[id].needs == s.jobs[id].needs
  }

  lemma ChangeSameNeeds(s: Server, s1: Server, id: JobId, to: JobState, dirty: bool)
    requires Known(s, id) && Edits(s, s1, id) && s1.resources == s.resources && s1.jobs[id].needs == s.jobs[id].needs
    ensures SameNeeds(s, ChangeJobState(s1, id, to, None, dirty))
  {
    ChangeShape(s1, id, to, None, dirty);
    hide ChangeJobState;
  }

  lemma {:induction false} ReleaseSameNeeds(s: Server, list: seq<JobId>, now: int)
    ensures SameNeeds(s, ReleaseLoop(s, list, now))
    decreases list
  {
    if !(list == [] || !Known(s, list[0]) || now < s.jobs[list[0]].deferTime) {
      ChangeSameNeeds(s, Undeferred(s, list[0]), list[0], Pending, false);
      hide ChangeJobState;
      ReleaseSameNeeds(Released(s, list[0]), list[1..], now);
    }
  }

  lemma {:induction false} ReconSameNeeds(s: Server, items: seq<ReconItem>)
    ensures SameNeeds(s, ReconLoop(s, items))
    decreases items
  {
    hide ChangeJobState;
    if items != [] {
      var item := items[0];
      if Known(s, item.id) && !item.NotKnown? {
        ChangeSameNeeds(s, s, item.id, if item.Ended? then FinalState(item.failed) else Running, item.Ended?);
      }
      ReconSameNeeds(ReconOne(s, item), items[1..]);
    }
  }

  lemma {:induction false} UnknownSameNeeds(s: Server, list: seq<JobId>, a: AgentId)
    ensures SameNeeds(s, UnknownLoop(s, list, a))
    decreases list
  {
    hide ChangeJobState;
    if list != [] {
      if RunsOn(s, list[0], a) {
        ChangeSameNeeds(s, FlagsCleared(s, list[0]), list[0], Unknown, true);
        UnknownSameNeeds(UnknownOne(s, list[0]), list[1..], a);
      } else {
        UnknownSameNeeds(s, list[1..], a);
      }
    }
  }

  lemma StartWithin(s: Server, id: JobId, r: ResId)
    requires Within(s, r) && AllDistinct(s) && Startable(s, Some(id))
    ensures Within(Start(s, id), r) && AllDistinct(Start(s, id))
  {
    AllocateAdds(s.resources, s.jobs[id].needs, r);
    if r in s.resources { AvailableBounds(s.resources, s.jobs[id].needs, r); }
  }

  lemma {:induction false} PassWithin(s: Server, i: nat, quota: int, r: ResId)
    requires Within(s, r) && AllDistinct(s)
    ensures Within(PassFrom(s, i, quota), r) && AllDistinct(PassFrom(s, i, quota))
    decreases |s.pool| - i
  {
    hide Start, Startable, Within, AllDistinct, Known;
    if i < |s.pool| {
      if Startable(s, s.pool[i]) {
        StartFacts(s, s.pool[i]);
        StartWithin(s, s.pool[i].value, r);
        if quota > 1 { PassWithin(Start(s, s.pool[i].value), i + 1, quota - 1, r); }
      } else {
        PassWithin(s, i + 1, quota, r);
      }
    }
  }

  lemma ScheduleWithin(s: Server, r: ResId)
    requires Within(s, r) && AllDistinct(s)
    ensures Within(CheckJobs(s), r) && AllDistinct(CheckJobs(s))
  {
    hide PassFrom, GeneratePool;
    var s1 := if s.recalc then GeneratePool(s) else s;
    if s.recalc { GenerateShape(s); }
    PassWithin(s1, 0, Quota(s1), r);
  }

  lemma SameNeedsTame(s: Server, u: Server, t: Server, k: ResId)
    requires SameNeeds(s, u) && t.jobs == u.jobs && t.resources == u.resources
    ensures Tame(s, t, k)
  {
  }

  lemma LoopTame(s: Server, e: Event, k: ResId)
    requires e.ReleaseTimer? || e.ReconMsg? || e.AgentGone?
    ensures Tame(s, Apply(s, e), k)
  {
    hide ReleaseLoop, UnknownLoop, ReconLoop, Tame, SameNeeds;
    match e
    case ReleaseTimer(now) => ReleaseSameNeeds(s, s.deferred, now); SameNeedsTame(s, Apply(s, e), Apply(s, e), k);
    case ReconMsg(_, items) => ReconSameNeeds(s, items); SameNeedsTame(s, ReconLoop(s, items), Apply(s, e), k);
    case AgentGone(a) => UnknownSameNeeds(s, s.order, a); SameNeedsTame(s, UnknownLoop(s, s.order, a), Apply(s, e), k);
  }

  lemma CleanupTame(s: Server, id: JobId, k: ResId)
    ensures Tame(s, CleanupJob(s, id), k)
  {
    hide ClearSlots, Without;
  }

  lemma MarksTame(s: Server, id: JobId, dirty: bool, flushing: bool, k: ResId)
    ensures Tame(s, SetMarks(s, id, dirty, flushing), k)
  {
  }

  lemma TablesTame(s: Server, e: Event, k: ResId)
    requires Fits(s, e) && (e.ChangeQueue? || e.ChangeResource? || e.LoginMsg?)
    ensures Tame(s, Apply(s, e), k)
  {
  }

  lemma StepTame(s: Server, e: Event, k: ResId)
    requires ResInv(s, k) && Fits(s, e) && !e.ScheduleTimer?
    ensures Tame(s, Apply(s, e), k)
  {
    if e.Add? { AddTame(s, e.id, e.request, k); }
    else if e.Cleanup? { CleanupTame(s, e.id, k); }
    else if e.Marks? { MarksTame(s, e.id, e.dirty, e.flushing, k); }
    hide ResInv, Tame, Apply;
    if e.Modify? || e.Delete? || e.Signal? { UserTame(s, e, k); }
    else if e.StartedMsg? || e.CompletedMsg? { ReportTame(s, e, k); }
    else if e.ReleaseTimer? || e.ReconMsg? || e.AgentGone? { LoopTame(s, e, k); }
    else if e.ChangeQueue? || e.ChangeResource? || e.LoginMsg? { TablesTame(s, e, k); }
  }

  lemma StepWithin(s: Server, e: Event, k: ResId)
    requires ResInv(s, k) && Within(s, k) && AllDistinct(s) && Fits(s, e)
    ensures Within(Apply(s, e), k) && AllDistinct(Apply(s, e))
  {
    hide ResInv, Within, AllDistinct, Tame;
    if e.ScheduleTimer? {
      ScheduleWithin(s, k);
    } else {
      hide Apply;
      StepTame(s, e, k);
      TameKeeps(s, Apply(s, e), k);
    }
  }

  // -------------------------------------------------------------------------
  // All runs
  // -------------------------------------------------------------------------

  lemma {:induction false} RunResources(s: Server, events: seq<Event>, k: ResId)
    requires ResInv(s, k) && Within(s, k) && AllDistinct(s) && ResourceRun(s, events, k)
    ensures ResInv(Run(s, events), k) && Within(Run(s, events), k)
    decreases events
  {
    hide ResInv, Within, AllDistinct, Apply, MessageFits, Keeps, Fits;
    if events != [] {
      StepConserves(s, events[0], k);
      StepWithin(s, events[0], k);
      RunResources(Apply(s, events[0]), events[1..], k);
    }
  }

  // In every such run a resource is in use by exactly the jobs that are sent, running or unknown, and
  // never beyond what there is.
  lemma ResourcesInAllRuns(s: Server, events: seq<Event>, k: ResId)
    requires Initial(s) && ResourceRun(s, events, k)
    ensures var t := Run(s, events);
            k in t.resources ==>
              && t.resources[k].inUse == Sum(t.order, t.jobs, Held(k))
              && 0 <= t.resources[k].inUse <= t.resources[k].count
  {
    InitialBase(s);
    RunResources(s, events, k);
    var t := Run(s, events);
    hide Run;
    SumAtLeast(t.order, t.jobs, 0, k);
  }

  // Giving back without the clamp at zero.
  function PlainReturn(res: map<ResId, Resource>, n: Need): map<ResId, Resource> {
    if n.res in res then res[n.res := res[n.res].(inUse := res[n.res].inUse - n.needed)] else res
  }

  function PlainDeallocate(res: map<ResId, Resource>, needs: seq<Need>): map<ResId, Resource>
    decreases needs
  {
    if needs == [] then res else PlainDeallocate(PlainReturn(res, needs[0]), needs[1..])
  }

  lemma {:induction false} NoClamp(res: map<ResId, Resource>, needs: seq<Need>)
    requires NonNegative(needs) && forall r :: r in res ==> NeedOf(needs, r) <= res[r].inUse
    ensures Deallocate(res, needs) == PlainDeallocate(res, needs)
    decreases needs
  {
    if needs != [] {
      var n := needs[0];
      forall r | r in res ensures NeedOf(needs[1..], r) >= 0 && NeedOf(needs, r) == (if n.res == r then n.needed else 0) + NeedOf(needs[1..], r) {
        NeedNonNegative(needs[1..], r);
      }
      NoClamp(Returned(res, n), needs[1..]);
    }
  }

  // In every such run, whatever job gives its resources back, the clamp does not show.
  lemma ClampNeverFires(s: Server, events: seq<Event>, id: JobId)
    requires Initial(s) && forall k: ResId :: ResourceRun(s, events, k)
    requires id in Run(s, events).jobs && Holds(Run(s, events).jobs[id])
    ensures var t := Run(s, events); Deallocate(t.resources, t.jobs[id].needs) == PlainDeallocate(t.resources, t.jobs[id].needs)
  {
    InitialBase(s);
    var t := Run(s, events);
    forall r | r in t.resources ensures NeedOf(t.jobs[id].needs, r) <= t.resources[r].inUse {
      RunResources(s, events, r);
      HeldIsInUse(t, id, r);
    }
    RunResources(s, events, 0);
    assert NeedsOk(t.jobs[id], 0);
    hide Run, ResInv;
    NoClamp(t.resources, t.jobs[id].needs);
  }

  // -------------------------------------------------------------------------
  // Where conservation fails
  // -------------------------------------------------------------------------

  // A recon that reports a holding job as ended keeps a resource conserved if and only if the job needed
  // none of it, or its start is unanswered and the flag that stays behind still makes it hold.
  lemma ReconFinishKeepsIff(s: Server, id: JobId, failed: bool, r: ResId)
    requires TableInv(s) && Conserved(s, r) && r in s.resources && id in s.jobs && Holds(s.jobs[id])
    ensures Conserved(ReconOne(s, Ended(id, failed)), r) <==> s.jobs[id].started || NeedOf(s.jobs[id].needs, r) == 0
  {
    ChangeShape(s, id, FinalState(failed), None, true);
    hide ChangeJobState;
    SumUpdate(s.order, s.jobs, id, Changed(s.jobs[id], FinalState(failed), None, true), Held(r));
  }

  // The same holds of a deletion.
  lemma DeletionKeepsIff(s: Server, id: JobId, r: ResId)
    requires TableInv(s) && Conserved(s, r) && r in s.resources && id in s.jobs && !s.jobs[id].deleted && Holds(s.jobs[id])
    ensures Conserved(DeleteJob(s, id), r) <==> s.jobs[id].started || NeedOf(s.jobs[id].needs, r) == 0
  {
    var s1 := DeleteMarked(s, id);
    ChangeShape(s1, id, NoState, None, false);
    hide ChangeJobState;
    var j := Changed(s1.jobs[id], NoState, None, false);
    SumUpdate(s.order, s.jobs, id, j, Held(r));
    assert DeleteJob(s, id).jobs == s.jobs[id := j];
  }

  // A job whose start was unanswered when it was deleted holds its resources until it is removed, which
  // keeps a resource conserved if and only if the job needed none of it.
  lemma RemovalKeepsIff(s: Server, id: JobId, r: ResId)
    requires TableInv(s) && Conserved(s, r) && r in s.resources && id in s.jobs && s.jobs[id].deleted
    requires !s.jobs[id].dirty && !s.jobs[id].flushing
    ensures Conserved(CleanupJob(s, id), r) <==> !Holds(s.jobs[id]) || NeedOf(s.jobs[id].needs, r) == 0
  {
    SumWithout(s.order, s.jobs, id, Held(r));
  }

  lemma {:induction false} DeallocateFloor(res: map<ResId, Resource>, needs: seq<Need>, r: ResId)
    requires NonNegative(needs) && r in res && res[r].inUse >= 0
    ensures r in Deallocate(res, needs) && Deallocate(res, needs)[r].inUse >= 0
    ensures NeedOf(needs, r) > 0 && res[r].inUse > 0 ==> Deallocate(res, needs)[r].inUse < res[r].inUse
    decreases needs
  {
    if needs != [] {
      NeedNonNegative(needs[1..], r);
      DeallocateLowers(Returned(res, needs[0]), needs[1..], r);
      DeallocateFloor(Returned(res, needs[0]), needs[1..], r);
    }
  }

  // A completion of a job that holds nothing gives its needs back all the same: a resource stays
  // conserved if and only if the job needed none of it, or the clamp at zero hides it.
  lemma CompletionKeepsIff(s: Server, id: JobId, failed: bool, r: ResId)
    requires TableInv(s) && Conserved(s, r) && r in s.resources && s.resources[r].inUse >= 0
    requires id in s.jobs && !Holds(s.jobs[id]) && NonNegative(s.jobs[id].needs)
    ensures Conserved(JobCompleted(s, id, failed), r) <==> NeedOf(s.jobs[id].needs, r) == 0 || s.resources[r].inUse == 0
  {
    var t, needs := JobCompleted(s, id, failed), s.jobs[id].needs;
    CompletedHeld(s, id, failed, r);
    NeedNonNegative(needs, r);
    DeallocateLowers(s.resources, needs, r);
    DeallocateFloor(s.resources, needs, r);
    if NeedOf(needs, r) == 0 { DeallocateSubtracts(s.resources, needs, r); }
    hide JobCompleted, TableInv, Deallocate;
  }

  lemma CompletedHeld(s: Server, id: JobId, failed: bool, r: ResId)
    requires TableInv(s) && id in s.jobs && !Holds(s.jobs[id])
    ensures var t := JobCompleted(s, id, failed);
            && t.order == s.order && t.resources == Deallocate(s.resources, s.jobs[id].needs)
            && Sum(t.order, t.jobs, Held(r)) == Sum(s.order, s.jobs, Held(r))
  {
    assert Known(s, id);
    ChangeShape(NeedsReturned(s, id), id, FinalState(failed), None, true);
    hide ChangeJobState, Deallocate;
    var j := Changed(s.jobs[id], FinalState(failed), None, true).(started := false);
    assert JobCompleted(s, id, failed).jobs == s.jobs[id := j];
    SumUpdate(s.order, s.jobs, id, j, Held(r));
  }

  // A start report, or a recon item that reports a job alive, makes a job a holder without taking what it
  // needs.
  lemma RevivalKeepsIff(s: Server, id: JobId, r: ResId)
    requires TableInv(s) && Conserved(s, r) && r in s.resources && id in s.jobs && !Holds(s.jobs[id])
    ensures Conserved(JobStarted(s, id), r) <==> NeedOf(s.jobs[id].needs, r) == 0
    ensures Conserved(ReconOne(s, Alive(id)), r) <==> NeedOf(s.jobs[id].needs, r) == 0
  {
    assert Known(s, id);
    var j := s.jobs[id];
    ChangeShape(s, id, Running, None, true);
    ChangeShape(s, id, Running, None, false);
    hide ChangeJobState;
    assert JobStarted(s, id).jobs == s.jobs[id := Changed(j, Running, None, true).(started := false)];
    SumUpdate(s.order, s.jobs, id, Changed(j, Running, None, true).(started := false), Held(r));
    SumUpdate(s.order, s.jobs, id, Changed(j, Running, None, false), Held(r));
  }

  // The needs of an UNKNOWN job can be changed without restarting it, which leaves what is in use alone:
  // a resource stays conserved if and only if the job needs as much of it as before.
  lemma NeedsChangeKeepsIff(s: Server, id: JobId, m: Mod, r: ResId)
    requires TableInv(s) && Conserved(s, r) && r in s.resources && JobsOk(s)
    requires !ModRefused(s, id, m) && s.jobs[id].state == Unknown && !m.restart && m.needs.Some?
    ensures Conserved(ModJob(s, id, m), r) <==> NeedOf(m.needs.value, r) == NeedOf(s.jobs[id].needs, r)
  {
    var s1, to, dirty := ModEdited(s, id, m), ModTarget(s.jobs[id], m), ModDirty(s.jobs[id], m);
    assert JobOk(s.jobs[id]) && to == Unknown;
    ChangeShape(s1, id, to, m.queue, dirty);
    hide ChangeJobState, ModDirty, ModTarget;
    var j := Changed(s1.jobs[id], to, m.queue, dirty);
    assert ModJob(s, id, m).jobs == s.jobs[id := j];
    SumUpdate(s.order, s.jobs, id, j, Held(r));
  }

  // -------------------------------------------------------------------------
  // The start test and needs that name a resource twice
  // -------------------------------------------------------------------------

  predicate AtMostOnePositive(needs: seq<Need>) {
    forall i, k :: 0 <= i < k < |needs| && needs[i].res == needs[k].res ==> needs[i].needed == 0 || needs[k].needed == 0
  }

  lemma {:induction false} NeedAllZero(needs: seq<Need>, r: ResId)
    requires forall i :: 0 <= i < |needs| && needs[i].res == r ==> needs[i].needed == 0
    ensures NeedOf(needs, r) == 0
  {
    if needs != [] { NeedAllZero(needs[1..], r); }
  }

  lemma {:induction false} PositiveBounds(res: map<ResId, Resource>, needs: seq<Need>, r: ResId)
    requires Available(res, needs) && AtMostOnePositive(needs) && r in res && res[r].inUse <= res[r].count
    ensures res[r].inUse + NeedOf(needs, r) <= res[r].count
  {
    if needs != [] {
      if needs[0].res == r && needs[0].needed != 0 {
        forall i | 0 <= i < |needs[1..]| && needs[1..][i].res == r ensures needs[1..][i].needed == 0 { assert needs[i + 1].res == r; }
        NeedAllZero(needs[1..], r);
      } else {
        PositiveBounds(res, needs[1..], r);
      }
    }
  }

  lemma {:induction false} NeedAtLeastOne(needs: seq<Need>, i: nat)
    requires NonNegative(needs) && i < |needs|
    ensures NeedOf(needs, needs[i].res) >= needs[i].needed
  {
    if i == 0 { NeedNonNegative(needs[1..], needs[0].res); } else { NeedAtLeastOne(needs[1..], i - 1); }
  }

  lemma {:induction false} NeedAtLeastTwo(needs: seq<Need>, i: nat, k: nat)
    requires NonNegative(needs) && i < k < |needs| && needs[i].res == needs[k].res
    ensures NeedOf(needs, needs[i].res) >= needs[i].needed + needs[k].needed
  {
    if i == 0 { NeedAtLeastOne(needs[1..], k - 1); } else { NeedAtLeastTwo(needs[1..], i - 1, k - 1); }
  }

  // One short of what is needed of r, and just enough of everything else.
  function OneShort(needs: seq<Need>, r: ResId): map<ResId, Resource> {
    map x | x in Named(needs) :: Resource(if x == r then NeedOf(needs, r) - 1 else NeedOf(needs, x), 0)
  }

  function Named(needs: seq<Need>): set<ResId> {
    set i | 0 <= i < |needs| :: needs[i].res
  }

  ghost predicate TestIsSafe(needs: seq<Need>) {
    forall res: map<ResId, Resource>, r: ResId ::
      Available(res, needs) && r in res && res[r].inUse <= res[r].count ==> res[r].inUse + NeedOf(needs, r) <= res[r].count
  }

  lemma TwicePositiveOvercommits(needs: seq<Need>, i: nat, k: nat)
    requires NonNegative(needs) && i < k < |needs| && needs[i].res == needs[k].res && needs[i].needed > 0 && needs[k].needed > 0
    ensures !TestIsSafe(needs)
  {
    var r := needs[i].res;
    var res := OneShort(needs, r);
    assert r in Named(needs);
    NeedAtLeastTwo(needs, i, k);
    forall n | 0 <= n < |needs|
      ensures needs[n].res in res && needs[n].needed <= res[needs[n].res].count - res[needs[n].res].inUse
    {
      assert needs[n].res in Named(needs);
      NeedAtLeastOne(needs, n);
      if n < i { if needs[n].res == r { NeedAtLeastTwo(needs, n, i); } }
      else if n > i { if needs[n].res == r { NeedAtLeastTwo(needs, i, n); } }
    }
    assert Available(res, needs) && r in res && res[r].inUse <= res[r].count && res[r].inUse + NeedOf(needs, r) > res[r].count;
  }

  // The start test never lets a job take more than there is if and only if the job does not ask for
  // the same resource in two positive amounts.
  lemma StartTestIsSafeIff(needs: seq<Need>)
    requires NonNegative(needs)
    ensures TestIsSafe(needs) <==> AtMostOnePositive(needs)
  {
    if AtMostOnePositive(needs) {
      forall res: map<ResId, Resource>, r: ResId | Available(res, needs) && r in res && res[r].inUse <= res[r].count
        ensures res[r].inUse + NeedOf(needs, r) <= res[r].count
      {
        PositiveBounds(res, needs, r);
      }
    } else {
      var i, k :| 0 <= i < k < |needs| && needs[i].res == needs[k].res && needs[i].needed != 0 && needs[k].needed != 0;
      TwicePositiveOvercommits(needs, i, k);
    }
  }
}
