/**
 Resource conservation: what is in use of a resource is what the jobs that hold it need, never more
 than there is, and giving back never meets the clamp at zero.
 */
module SchedResources {
  import opened Options
  import opened JobStates
  import opened SchedState
  import opened SchedSteps
  import opened SchedDefer
  import opened SchedRun

  // -------------------------------------------------------------------------
  // Taking and returning the needs of one job
  // -------------------------------------------------------------------------

  function NeedOf(needs: seq<Need>, r: ResId): int {
    if needs == [] then 0 else (if needs[0].res == r then needs[0].needed else 0) + NeedOf(needs[1..], r)
  }

  predicate NoDuplicates(needs: seq<Need>) {
    forall i, k :: 0 <= i < k < |needs| ==> needs[i].res != needs[k].res
  }

  lemma {:induction false} NeedNonNegative(needs: seq<Need>, r: ResId)
    requires NonNegative(needs)
    ensures NeedOf(needs, r) >= 0
  {
    if needs != [] { NeedNonNegative(needs[1..], r); }
  }

  lemma {:induction false} AllocateAdds(res: map<ResId, Resource>, needs: seq<Need>, r: ResId)
    ensures r in Allocate(res, needs) <==> r in res
    ensures r in res ==> Allocate(res, needs)[r] == res[r].(inUse := res[r].inUse + NeedOf(needs, r))
    decreases needs
  {
    if needs != [] { AllocateAdds(Taken(res, needs[0]), needs[1..], r); }
  }

  lemma {:induction false} DeallocateKeys(res: map<ResId, Resource>, needs: seq<Need>, r: ResId)
    ensures r in Deallocate(res, needs) <==> r in res
    ensures r in res ==> Deallocate(res, needs)[r].count == res[r].count
    decreases needs
  {
    if needs != [] { DeallocateKeys(Returned(res, needs[0]), needs[1..], r); }
  }

  // While enough is in use, what is returned is what was needed.
  lemma {:induction false} DeallocateSubtracts(res: map<ResId, Resource>, needs: seq<Need>, r: ResId)
    requires NonNegative(needs) && r in res && NeedOf(needs, r) <= res[r].inUse
    ensures r in Deallocate(res, needs) && Deallocate(res, needs)[r] == res[r].(inUse := res[r].inUse - NeedOf(needs, r))
    decreases needs
  {
    if needs != [] {
      NeedNonNegative(needs[1..], r);
      DeallocateSubtracts(Returned(res, needs[0]), needs[1..], r);
    }
  }

  // Returning what was just taken restores every resource.
  lemma DeallocateUndoesAllocate(res: map<ResId, Resource>, needs: seq<Need>)
    requires NonNegative(needs) && forall r :: r in res ==> res[r].inUse >= 0
    ensures Deallocate(Allocate(res, needs), needs) == res
  {
    var taken := Allocate(res, needs);
    var back := Deallocate(taken, needs);
    forall r: ResId ensures r in back <==> r in res {
      AllocateAdds(res, needs, r);
      DeallocateKeys(taken, needs, r);
    }
    forall r: ResId | r in res ensures back[r] == res[r] {
      AllocateAdds(res, needs, r);
      DeallocateSubtracts(taken, needs, r);
    }
  }

  // The test looks at each need on its own, so it bounds the sum when no resource is named twice.
  lemma {:induction false} AvailableBounds(res: map<ResId, Resource>, needs: seq<Need>, r: ResId)
    requires Available(res, needs) && NoDuplicates(needs) && r in res && res[r].inUse <= res[r].count
    ensures res[r].inUse + NeedOf(needs, r) <= res[r].count
  {
    if needs != [] {
      if needs[0].res == r {
        NeedAbsent(needs[1..], r);
      } else {
        AvailableBounds(res, needs[1..], r);
      }
    }
  }

  lemma {:induction false} NeedAbsent(needs: seq<Need>, r: ResId)
    requires forall i :: 0 <= i < |needs| ==> needs[i].res != r
    ensures NeedOf(needs, r) == 0
  {
    if needs != [] { NeedAbsent(needs[1..], r); }
  }

  // -------------------------------------------------------------------------
  // The invariant
  // -------------------------------------------------------------------------

  function Held(r: ResId): Job -> int {
    (j: Job) => if Holds(j) then NeedOf(j.needs, r) else 0
  }

  ghost predicate Conserved(s: Server, r: ResId) {
    r in s.resources ==> s.resources[r].inUse == Sum(s.order, s.jobs, Held(r))
  }

  // No job needs less than nothing, and a job that has been sent is pending or runs if it needs some of
  // the resource.
  predicate NeedsOk(j: Job, r: ResId) {
    NonNegative(j.needs) && (j.started ==> j.state == Pending || j.state == Running || NeedOf(j.needs, r) == 0)
  }

  predicate AllNeedsOk(s: Server, r: ResId) {
    forall id :: id in s.jobs ==> NeedsOk(s.jobs[id], r)
  }

  // What a step must not do for a resource to be conserved: ask for less than nothing, delete a job that
  // holds some of it or change what it needs of it in passing, use a recon to finish a job that holds
  // some of it or to revive one that needs some of it, or report one that holds nothing and needs some.
  predicate Keeps(s: Server, e: Event, k: ResId) {
    match e
    case Add(_, r) => NonNegative(r.needs)
    case Modify(id, m) =>
      m.needs.Some? ==>
        && NonNegative(m.needs.value)
        && (id in s.jobs && Holds(s.jobs[id]) && !m.restart ==> NeedOf(m.needs.value, k) == NeedOf(s.jobs[id].needs, k))
    case Delete(id) => id in s.jobs && Holds(s.jobs[id]) ==> NeedOf(s.jobs[id].needs, k) == 0
    case ReconMsg(_, items) => forall i :: 0 <= i < |items| ==> ReconKeeps(s, items[i], k)
    case StartedMsg(id) => id in s.jobs && !Holds(s.jobs[id]) ==> NeedOf(s.jobs[id].needs, k) == 0
    case CompletedMsg(id, _) => id in s.jobs && !Holds(s.jobs[id]) ==> NeedOf(s.jobs[id].needs, k) == 0
    case _ => true
  }

  predicate ReconKeeps(s: Server, item: ReconItem, k: ResId) {
    item.id in s.jobs ==>
      && (item.Ended? && Holds(s.jobs[item.id]) ==> NeedOf(s.jobs[item.id].needs, k) == 0)
      && (item.Alive? && !Holds(s.jobs[item.id]) ==> NeedOf(s.jobs[item.id].needs, k) == 0)
  }

  // One job changes what it holds, and the resource is changed to match.
  lemma HeldChanges(s: Server, t: Server, id: JobId, r: ResId)
    requires TableInv(s) && Conserved(s, r) && id in s.jobs && id in t.jobs && t.order == s.order && t.jobs == s.jobs[id := t.jobs[id]]
    requires r in t.resources <==> r in s.resources
    requires r in s.resources ==> t.resources[r].inUse == s.resources[r].inUse + Held(r)(t.jobs[id]) - Held(r)(s.jobs[id])
    ensures Conserved(t, r)
  {
    SumUpdate(s.order, s.jobs, id, t.jobs[id], Held(r));
  }

  lemma HeldNonNegative(j: Job, r: ResId)
    requires NeedsOk(j, r)
    ensures Held(r)(j) >= 0
  {
    NeedNonNegative(j.needs, r);
  }

  lemma {:induction false} SumAtLeast(order: seq<JobId>, jobs: map<JobId, Job>, id: JobId, r: ResId)
    requires forall x :: x in jobs ==> NeedsOk(jobs[x], r)
    ensures Sum(order, jobs, Held(r)) >= 0
    ensures id in order && id in jobs ==> Sum(order, jobs, Held(r)) >= Held(r)(jobs[id])
  {
    if order != [] {
      if order[0] in jobs { HeldNonNegative(jobs[order[0]], r); }
      SumAtLeast(order[1..], jobs, id, r);
    }
  }

  // A holding job can give back all it needs.
  lemma HeldIsInUse(s: Server, id: JobId, r: ResId)
    requires TableInv(s) && AllNeedsOk(s, r) && Conserved(s, r) && id in s.jobs && Holds(s.jobs[id]) && r in s.resources
    ensures 0 <= NeedOf(s.jobs[id].needs, r) <= s.resources[r].inUse
  {
    SumAtLeast(s.order, s.jobs, id, r);
    NeedNonNegative(s.jobs[id].needs, r);
  }

  lemma OneNeedsOk(s: Server, t: Server, id: JobId, r: ResId)
    requires AllNeedsOk(s, r) && id in t.jobs && t.jobs == s.jobs[id := t.jobs[id]] && NeedsOk(t.jobs[id], r)
    ensures AllNeedsOk(t, r)
  {
  }

  // -------------------------------------------------------------------------
  // Steps
  // -------------------------------------------------------------------------

  // An edit and a change of state of a job that holds the same before and after.
  lemma SameHeld(s: Server, s1: Server, id: JobId, to: JobState, q: Option<QueueId>, dirty: bool, r: ResId)
    requires TableInv(s) && AllNeedsOk(s, r) && Conserved(s, r) && Edits(s, s1, id) && s1.resources == s.resources
    requires q.Some? ==> q.value in s.qstats
    requires var j := Changed(s1.jobs[id], to, q, dirty); NeedsOk(j, r) && Held(r)(j) == Held(r)(s.jobs[id])
    ensures Known(s1, id)
    ensures var t := ChangeJobState(s1, id, to, q, dirty); Conserved(t, r) && AllNeedsOk(t, r)
  {
    EditsTable(s, s1, id);
    ChangeShape(s1, id, to, q, dirty);
    hide ChangeJobState;
    var t := ChangeJobState(s1, id, to, q, dirty);
    HeldChanges(s, t, id, r);
    OneNeedsOk(s, t, id, r);
  }

  // A job that holds what it needs, or needs nothing, gives it back.
  lemma GivesBack(s: Server, s1: Server, id: JobId, to: JobState, q: Option<QueueId>, dirty: bool, r: ResId)
    requires TableInv(s) && AllNeedsOk(s, r) && Conserved(s, r) && Edits(s, s1, id)
    requires Holds(s.jobs[id]) || NeedOf(s.jobs[id].needs, r) == 0
    requires s1.resources == Deallocate(s.resources, s.jobs[id].needs) && (q.Some? ==> q.value in s.qstats)
    ensures Known(s1, id)
    ensures var t := ChangeJobState(s1, id, to, q, dirty);
            && t.jobs == s.jobs[id := Changed(s1.jobs[id], to, q, dirty)] && t.order == s.order
            && (r in t.resources <==> r in s.resources)
            && (r in s.resources ==> t.resources[r].inUse == s.resources[r].inUse - NeedOf(s.jobs[id].needs, r))
  {
    EditsTable(s, s1, id);
    ChangeShape(s1, id, to, q, dirty);
    DeallocateKeys(s.resources, s.jobs[id].needs, r);
    if r in s.resources {
      if Holds(s.jobs[id]) { HeldIsInUse(s, id, r); } else { SumAtLeast(s.order, s.jobs, id, r); }
      assert NeedsOk(s.jobs[id], r);
      DeallocateSubtracts(s.resources, s.jobs[id].needs, r);
    }
    hide ChangeJobState, Deallocate, TableInv, Conserved;
  }

  ghost predicate ResInv(s: Server, r: ResId) {
    BaseInv(s) && AllNeedsOk(s, r) && Conserved(s, r)
  }

  lemma EnteredConserved(s: Server, id: JobId, r: Request, k: ResId)
    requires TableInv(s) && AllNeedsOk(s, k) && Conserved(s, k) && NonNegative(r.needs) && !AddRefused(s, id, r)
    ensures Conserved(AddEntered(s, id, r), k) && AllNeedsOk(AddEntered(s, id, r), k)
  {
    var s1 := AddEntered(s, id, r);
    assert id !in s.order;
    SumOutside(s.order, s.jobs, id, s1.jobs[id], Held(k));
    SumAppend(s.order, s1.jobs, id, Held(k));
    hide TableInv, InsertInOrder;
  }

  lemma AddConserves(s: Server, id: JobId, r: Request, k: ResId)
    requires ResInv(s, k) && NonNegative(r.needs)
    ensures Conserved(AddJob(s, id, r), k) && AllNeedsOk(AddJob(s, id, r), k)
  {
    assert TableInv(s);
    hide ChangeJobState, ListOk, TableInv, Conserved, AllNeedsOk, AddEntered, JobsOk;
    if !AddRefused(s, id, r) {
      var s1 := AddEntered(s, id, r);
      AddEnteredOk(s, id, r);
      EnteredConserved(s, id, r, k);
      SameHeld(s1, s1, id, AddTarget(r), None, true, k);
    }
  }

  lemma ModConserves(s: Server, id: JobId, m: Mod, k: ResId)
    requires ResInv(s, k) && Keeps(s, Modify(id, m), k)
    ensures Conserved(ModJob(s, id, m), k) && AllNeedsOk(ModJob(s, id, m), k)
  {
    if !ModRefused(s, id, m) {
      var j, s1, to, dirty := s.jobs[id], ModEdited(s, id, m), ModTarget(s.jobs[id], m), ModDirty(s.jobs[id], m);
      assert JobOk(j) && NeedsOk(j, k);
      hide ChangeJobState, ListOk, TableInv, Deallocate, ModDirty;
      if m.restart && j.state == Unknown {
        GivesBack(s, s1, id, to, m.queue, dirty, k);
        var t := ChangeJobState(s1, id, to, m.queue, dirty);
        assert !Holds(t.jobs[id]) && NeedsOk(t.jobs[id], k);
        HeldChanges(s, t, id, k);
        OneNeedsOk(s, t, id, k);
      } else {
        SameHeld(s, s1, id, to, m.queue, dirty, k);
      }
    }
  }

  lemma DeleteConserves(s: Server, id: JobId, k: ResId)
    requires ResInv(s, k) && Keeps(s, Delete(id), k)
    ensures Conserved(DeleteJob(s, id), k) && AllNeedsOk(DeleteJob(s, id), k)
  {
    hide ChangeJobState, ListOk;
    if Known(s, id) && !s.jobs[id].deleted { SameHeld(s, DeleteMarked(s, id), id, NoState, None, false, k); }
  }

  lemma SignalConserves(s: Server, id: JobId, k: ResId)
    requires ResInv(s, k)
    ensures Conserved(SignalUnknown(s, id), k) && AllNeedsOk(SignalUnknown(s, id), k)
  {
    hide ChangeJobState, ListOk, Deallocate;
    if Known(s, id) && !s.jobs[id].deleted && s.jobs[id].state == Unknown {
      GivesBack(s, NeedsReturned(s, id), id, Exited, None, true, k);
      var t := ChangeJobState(NeedsReturned(s, id), id, Exited, None, true);
      HeldChanges(s, t, id, k);
      OneNeedsOk(s, t, id, k);
    }
  }

  lemma CleanupConserves(s: Server, id: JobId, k: ResId)
    requires ResInv(s, k)
    ensures Conserved(CleanupJob(s, id), k) && AllNeedsOk(CleanupJob(s, id), k)
  {
    if id in s.jobs {
      assert JobOk(s.jobs[id]) && NeedsOk(s.jobs[id], k);
      SumWithout(s.order, s.jobs, id, Held(k));
    }
  }

  lemma {:induction false} ReleaseConserves(s: Server, now: int, k: ResId)
    requires ResInv(s, k)
    ensures Conserved(ReleaseLoop(s, s.deferred, now), k) && AllNeedsOk(ReleaseLoop(s, s.deferred, now), k)
    decreases |s.deferred|
  {
    if !(s.deferred == [] || !Known(s, s.deferred[0]) || now < s.jobs[s.deferred[0]].deferTime) {
      var id := s.deferred[0];
      assert id in s.deferred && Listed(s.jobs[id]) && JobOk(s.jobs[id]) && NeedsOk(s.jobs[id], k);
      SameHeld(s, Undeferred(s, id), id, Pending, None, false, k);
      ReleasedFirst(s, id);
      hide ChangeJobState, Conserved, BaseInv, AllNeedsOk;
      ReleaseConserves(Released(s, id), now, k);
    }
  }

  lemma StartedConserves(s: Server, id: JobId, k: ResId)
    requires ResInv(s, k) && Keeps(s, StartedMsg(id), k)
    ensures Conserved(JobStarted(s, id), k) && AllNeedsOk(JobStarted(s, id), k)
  {
    if Known(s, id) {
      assert NeedsOk(s.jobs[id], k);
      ChangeShape(s, id, Running, None, true);
      hide ChangeJobState, BaseInv;
      assert TableInv(s);
      var t := JobStarted(s, id);
      assert t.jobs == s.jobs[id := Changed(s.jobs[id], Running, None, true).(started := false)];
      HeldChanges(s, t, id, k);
      OneNeedsOk(s, t, id, k);
    }
  }

  lemma CompletedConserves(s: Server, id: JobId, failed: bool, k: ResId)
    requires ResInv(s, k) && Keeps(s, CompletedMsg(id, failed), k)
    ensures Conserved(JobCompleted(s, id, failed), k) && AllNeedsOk(JobCompleted(s, id, failed), k)
  {
    hide ChangeJobState, ListOk, Deallocate;
    if Known(s, id) {
      assert NeedsOk(s.jobs[id], k);
      GivesBack(s, NeedsReturned(s, id), id, FinalState(failed), None, true, k);
      var t := JobCompleted(s, id, failed);
      assert t.jobs == s.jobs[id := Changed(s.jobs[id], FinalState(failed), None, true).(started := false)];
      HeldChanges(s, t, id, k);
      OneNeedsOk(s, t, id, k);
    }
  }

  lemma ReconOneConserves(s: Server, item: ReconItem, k: ResId)
    requires TableInv(s) && AllNeedsOk(s, k) && Conserved(s, k) && ReconKeeps(s, item, k)
    ensures TableInv(ReconOne(s, item)) && Conserved(ReconOne(s, item), k) && AllNeedsOk(ReconOne(s, item), k)
  {
    hide ChangeJobState, TableInv;
    if Known(s, item.id) && !item.NotKnown? {
      var to := if item.Ended? then FinalState(item.failed) else Running;
      assert NeedsOk(s.jobs[item.id], k);
      SameHeld(s, s, item.id, to, None, item.Ended?, k);
      ChangeKeepsTable(s, item.id, to, None, item.Ended?);
    }
  }

  lemma ReconOneKeeps(s: Server, item: ReconItem, other: ReconItem, r: ResId)
    requires ReconKeeps(s, item, r) && ReconKeeps(s, other, r)
    ensures ReconKeeps(ReconOne(s, item), other, r)
  {
    if Known(s, item.id) && !item.NotKnown? {
      ChangeShape(s, item.id, if item.Ended? then FinalState(item.failed) else Running, None, item.Ended?);
    }
    hide ChangeJobState;
  }

  lemma {:induction false} ReconConserves(s: Server, items: seq<ReconItem>, k: ResId)
    requires TableInv(s) && AllNeedsOk(s, k) && Conserved(s, k) && forall i :: 0 <= i < |items| ==> ReconKeeps(s, items[i], k)
    ensures Conserved(ReconLoop(s, items), k) && AllNeedsOk(ReconLoop(s, items), k)
    decreases items
  {
    hide ReconOne, Conserved, AllNeedsOk, TableInv;
    if items != [] {
      ReconOneConserves(s, items[0], k);
      forall i | 0 <= i < |items[1..]| ensures ReconKeeps(ReconOne(s, items[0]), items[1..][i], k) {
        ReconOneKeeps(s, items[0], items[i + 1], k);
      }
      ReconConserves(ReconOne(s, items[0]), items[1..], k);
    }
  }

  lemma {:induction false} UnknownConserves(s: Server, list: seq<JobId>, a: AgentId, k: ResId)
    requires TableInv(s) && AllNeedsOk(s, k) && Conserved(s, k)
    ensures Conserved(UnknownLoop(s, list, a), k) && AllNeedsOk(UnknownLoop(s, list, a), k)
    decreases list
  {
    hide ChangeJobState, TableInv, Conserved;
    if list != [] {
      var id := list[0];
      if RunsOn(s, id, a) {
        var s1 := FlagsCleared(s, id);
        assert NeedsOk(s.jobs[id], k);
        SameHeld(s, s1, id, Unknown, None, true, k);
        EditsTable(s, s1, id);
        ChangeKeepsTable(s1, id, Unknown, None, true);
        UnknownConserves(UnknownOne(s, id), list[1..], a, k);
      } else {
        UnknownConserves(s, list[1..], a, k);
      }
    }
  }

  lemma StartConserves(s: Server, id: JobId, k: ResId)
    requires ResInv(s, k) && Startable(s, Some(id))
    ensures Conserved(Start(s, id), k) && AllNeedsOk(Start(s, id), k)
  {
    AllocateAdds(s.resources, s.jobs[id].needs, k);
    assert NeedsOk(s.jobs[id], k);
    hide Allocate, ListOk;
    var t := Start(s, id);
    HeldChanges(s, t, id, k);
    OneNeedsOk(s, t, id, k);
  }

  lemma {:induction false} PassConserves(s: Server, i: nat, quota: int, k: ResId)
    requires ResInv(s, k)
    ensures Conserved(PassFrom(s, i, quota), k) && AllNeedsOk(PassFrom(s, i, quota), k)
    decreases |s.pool| - i
  {
    if i < |s.pool| {
      if Startable(s, s.pool[i]) {
        StartFacts(s, s.pool[i]);
        StartBase(s, s.pool[i].value);
        StartConserves(s, s.pool[i].value, k);
        hide Start, Startable, BaseInv, Known, Conserved, AllNeedsOk;
        if quota > 1 { PassConserves(Start(s, s.pool[i].value), i + 1, quota - 1, k); }
      } else {
        hide Start, Startable, BaseInv, Known, Conserved, AllNeedsOk;
        PassConserves(s, i + 1, quota, k);
      }
    }
  }

  lemma SameConserved(s: Server, t: Server, k: ResId)
    requires Conserved(s, k) && AllNeedsOk(s, k) && t.jobs == s.jobs && t.order == s.order
    requires k in t.resources ==> k in s.resources && t.resources[k].inUse == s.resources[k].inUse
    ensures Conserved(t, k) && AllNeedsOk(t, k)
  {
  }

  lemma ScheduleConserves(s: Server, k: ResId)
    requires ResInv(s, k)
    ensures Conserved(CheckJobs(s), k) && AllNeedsOk(CheckJobs(s), k)
  {
    hide PassFrom, GeneratePool, BaseInv, Conserved, AllNeedsOk;
    var s1 := if s.recalc then GeneratePool(s) else s;
    if s.recalc { GenerateShape(s); }
    SameConserved(s, s1, k);
    QueuesBase(s, s1);
    PassConserves(s1, 0, Quota(s1), k);
  }

  lemma MarksConserves(s: Server, id: JobId, dirty: bool, flushing: bool, k: ResId)
    requires ResInv(s, k)
    ensures Conserved(SetMarks(s, id, dirty, flushing), k) && AllNeedsOk(SetMarks(s, id, dirty, flushing), k)
  {
    if id in s.jobs {
      assert NeedsOk(s.jobs[id], k);
      HeldChanges(s, SetMarks(s, id, dirty, flushing), id, k);
    }
  }

  lemma LoopConserves(s: Server, e: Event, k: ResId)
    requires ResInv(s, k) && Keeps(s, e, k) && (e.ReleaseTimer? || e.ScheduleTimer? || e.ReconMsg? || e.AgentGone?)
    ensures Conserved(Apply(s, e), k) && AllNeedsOk(Apply(s, e), k)
  {
    assert TableInv(s);
    hide BaseInv, TableInv, Conserved, AllNeedsOk, ReleaseLoop, CheckJobs, UnknownLoop, ReconLoop;
    match e
    case ReleaseTimer(now) => ReleaseConserves(s, now, k);
    case ScheduleTimer => ScheduleConserves(s, k);
    case ReconMsg(_, items) => ReconConserves(s, items, k); SameConserved(ReconLoop(s, items), Apply(s, e), k);
    case AgentGone(a) => UnknownConserves(s, s.order, a, k); SameConserved(UnknownLoop(s, s.order, a), Apply(s, e), k);
  }

  lemma TablesConserve(s: Server, e: Event, k: ResId)
    requires ResInv(s, k) && (e.ChangeQueue? || e.ChangeResource? || e.LoginMsg?)
    ensures Conserved(Apply(s, e), k) && AllNeedsOk(Apply(s, e), k)
  {
    hide BaseInv, Conserved, AllNeedsOk;
    SameConserved(s, Apply(s, e), k);
  }

  lemma StepConserves(s: Server, e: Event, k: ResId)
    requires ResInv(s, k) && MessageFits(s, e) && Keeps(s, e, k)
    ensures ResInv(Apply(s, e), k)
  {
    StepBase(s, e);
    hide BaseInv, Conserved, AllNeedsOk, AddJob, ModJob, DeleteJob, SignalUnknown, CleanupJob, JobStarted, JobCompleted, SetMarks;
    match e {
      case Add(id, r) => AddConserves(s, id, r, k);
      case Modify(id, m) => ModConserves(s, id, m, k);
      case Delete(id) => DeleteConserves(s, id, k);
      case Signal(id) => SignalConserves(s, id, k);
      case Cleanup(id) => CleanupConserves(s, id, k);
      case Marks(id, dirty, flushing) => MarksConserves(s, id, dirty, flushing, k);
      case StartedMsg(id) => StartedConserves(s, id, k);
      case CompletedMsg(id, failed) => CompletedConserves(s, id, failed, k);
      case _ =>
        hide Apply;
        if e.ChangeQueue? || e.ChangeResource? || e.LoginMsg? { TablesConserve(s, e, k); } else { LoopConserves(s, e, k); }
    }
  }
}
