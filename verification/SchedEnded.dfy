/**
 Jobs that an agent reports as ended although nobody waits for it any more.

 The agent repeats the end of a process until its recon has been acknowledged. By then the daemon may
 have taken the end in already and a user may have deferred the job anew or deleted it. The recon takes
 effect all the same.
 */
module SchedEnded {
  import opened Options
  import opened JobStates
  import opened SchedState
  import opened SchedSteps
  import opened SchedDefer
  import opened SchedRun
  import opened SchedCounters
  import opened SchedRecon

  // What is at stake: that listed jobs are DEFERRED, and that deleted ones are in no state.
  datatype Concern = OfListed | OfDeleted

  predicate Concerned(j: Job, c: Concern) {
    match c
    case OfListed => Listed(j)
    case OfDeleted => j.deleted
  }

  predicate Fine(j: Job, c: Concern) {
    Concerned(j, c) ==> j.state == if c.OfListed? then Deferred else NoState
  }

  predicate AllFine(s: Server, c: Concern) {
    forall id :: id in s.jobs ==> Fine(s.jobs[id], c)
  }

  // The step is a completion or a recon that names such a job as ended.
  predicate EndsConcerned(s: Server, e: Event, c: Concern) {
    match e
    case CompletedMsg(id, _) => id in s.jobs && Concerned(s.jobs[id], c)
    case ReconMsg(_, items) => exists i :: 0 <= i < |items| && items[i].Ended? && items[i].id in s.jobs && Concerned(s.jobs[items[i].id], c)
    case _ => false
  }

  // -------------------------------------------------------------------------
  // Every step but a recon
  // -------------------------------------------------------------------------

  lemma FineChanged(s: Server, t: Server, id: JobId, c: Concern)
    requires AllFine(s, c) && id in t.jobs && t.jobs == s.jobs[id := t.jobs[id]] && Fine(t.jobs[id], c)
    ensures AllFine(t, c)
  {
  }

  lemma ModFine(s: Server, id: JobId, m: Mod, c: Concern)
    requires AllFine(s, c)
    ensures AllFine(ModJob(s, id, m), c)
  {
    if !ModRefused(s, id, m) {
      ChangeShape(ModEdited(s, id, m), id, ModTarget(s.jobs[id], m), m.queue, ModDirty(s.jobs[id], m));
      hide ChangeJobState, ModDirty, ModList, Deallocate;
      FineChanged(s, ModJob(s, id, m), id, c);
    }
  }

  lemma UserFine(s: Server, e: Event, c: Concern)
    requires BaseInv(s) && AllFine(s, c) && (e.Add? || e.Modify? || e.Delete? || e.Signal?)
    ensures AllFine(Apply(s, e), c)
  {
    hide ChangeJobState, ListOk, ModJob, InsertInOrder;
    match e
    case Add(id, r) =>
      if !AddRefused(s, id, r) {
        ChangeShape(AddEntered(s, id, r), id, AddTarget(r), None, true);
        FineChanged(s, Apply(s, e), id, c);
      }
    case Modify(id, m) => ModFine(s, id, m, c);
    case Delete(id) =>
      if Known(s, id) && !s.jobs[id].deleted {
        ChangeShape(DeleteMarked(s, id), id, NoState, None, false);
        FineChanged(s, Apply(s, e), id, c);
      }
    case Signal(id) =>
      if Known(s, id) && !s.jobs[id].deleted && s.jobs[id].state == Unknown {
        ChangeShape(NeedsReturned(s, id), id, Exited, None, true);
        FineChanged(s, Apply(s, e), id, c);
      }
  }

  lemma StartedFine(s: Server, id: JobId, c: Concern)
    requires AllFine(s, c) && MayRun(s, id)
    ensures AllFine(JobStarted(s, id), c)
  {
    if Known(s, id) {
      ChangeShape(s, id, Running, None, true);
      hide ChangeJobState;
      FineChanged(s, JobStarted(s, id), id, c);
    }
  }

  lemma CompletedFineIff(s: Server, id: JobId, failed: bool, c: Concern)
    requires TableInv(s) && AllFine(s, c)
    ensures AllFine(JobCompleted(s, id, failed), c) <==> !EndsConcerned(s, CompletedMsg(id, failed), c)
  {
    if id in s.jobs {
      hide TableInv, JobCompleted, AllFine;
      CompletedJob(s, id, failed);
      OneFineIff(s, JobCompleted(s, id, failed), id, c);
      EndedIsFineIff(s.jobs[id], failed, c);
    }
  }

  lemma EndedIsFineIff(j: Job, failed: bool, c: Concern)
    ensures Fine(j.(state := FinalState(failed), dirty := true, started := false), c) <==> !Concerned(j, c)
  {
  }

  lemma OneFineIff(s: Server, t: Server, id: JobId, c: Concern)
    requires AllFine(s, c) && id in t.jobs && t.jobs == s.jobs[id := t.jobs[id]]
    ensures AllFine(t, c) <==> Fine(t.jobs[id], c)
  {
    if Fine(t.jobs[id], c) { FineChanged(s, t, id, c); }
  }

  lemma CompletedJob(s: Server, id: JobId, failed: bool)
    requires TableInv(s) && id in s.jobs
    ensures JobCompleted(s, id, failed).jobs == s.jobs[id := s.jobs[id].(state := FinalState(failed), dirty := true, started := false)]
  {
    assert Known(s, id);
    ChangeShape(NeedsReturned(s, id), id, FinalState(failed), None, true);
    hide ChangeJobState, TableInv, Deallocate;
  }

  lemma ReleaseFine(s: Server, now: int, c: Concern)
    requires BaseInv(s) && AllFine(s, c)
    ensures AllFine(ReleaseDeferred(s, now), c)
  {
    var t := ReleaseDeferred(s, now);
    ReleaseKeys(s, s.deferred, now);
    assert t.jobs.Keys == s.jobs.Keys;
    hide BaseInv, ReleaseDeferred;
    forall id | id in t.jobs ensures Fine(t.jobs[id], c) {
      assert id in s.jobs.Keys;
      ReleaseIsExact(s, now, id);
      if id in s.deferred { ListedIsKept(s, id); }
    }
  }

  lemma ListedIsKept(s: Server, id: JobId)
    requires BaseInv(s) && id in s.deferred
    ensures id in s.jobs && !s.jobs[id].deleted
  {
  }

  lemma {:induction false} ReleaseKeys(s: Server, list: seq<JobId>, now: int)
    ensures ReleaseLoop(s, list, now).jobs.Keys == s.jobs.Keys
    decreases list
  {
    if !(list == [] || !Known(s, list[0]) || now < s.jobs[list[0]].deferTime) {
      ReleasedJob(s, list[0]);
      hide Released;
      ReleaseKeys(Released(s, list[0]), list[1..], now);
    }
  }

  lemma UnknownOneFine(s: Server, id: JobId, a: AgentId, c: Concern)
    requires BaseInv(s) && AllFine(s, c) && RunsOn(s, id, a)
    ensures AllFine(UnknownOne(s, id), c)
  {
    ChangeShape(FlagsCleared(s, id), id, Unknown, None, true);
    hide ChangeJobState, ListOk;
    assert Holds(s.jobs[id]) && s.jobs[id].deferTime == 0;
    FineChanged(s, UnknownOne(s, id), id, c);
  }

  lemma {:induction false} UnknownFine(s: Server, list: seq<JobId>, a: AgentId, c: Concern)
    requires BaseInv(s) && AllFine(s, c)
    ensures AllFine(UnknownLoop(s, list, a), c)
    decreases list
  {
    hide UnknownOne, BaseInv, AllFine;
    if list != [] {
      if RunsOn(s, list[0], a) {
        UnknownOneBase(s, list[0], a);
        UnknownOneFine(s, list[0], a, c);
        UnknownFine(UnknownOne(s, list[0]), list[1..], a, c);
      } else {
        UnknownFine(s, list[1..], a, c);
      }
    }
  }

  lemma StartFine(s: Server, id: JobId, c: Concern)
    requires AllFine(s, c) && Known(s, id)
    ensures AllFine(Start(s, id), c)
  {
    FineChanged(s, Start(s, id), id, c);
  }

  lemma {:induction false} PassFine(s: Server, i: nat, quota: int, c: Concern)
    requires AllFine(s, c)
    ensures AllFine(PassFrom(s, i, quota), c)
    decreases |s.pool| - i
  {
    hide Start, Startable, AllFine, Known;
    if i < |s.pool| {
      if Startable(s, s.pool[i]) {
        StartFacts(s, s.pool[i]);
        StartFine(s, s.pool[i].value, c);
        if quota > 1 { PassFine(Start(s, s.pool[i].value), i + 1, quota - 1, c); }
      } else {
        PassFine(s, i + 1, quota, c);
      }
    }
  }

  lemma ScheduleFine(s: Server, c: Concern)
    requires AllFine(s, c)
    ensures AllFine(CheckJobs(s), c)
  {
    hide PassFrom, GeneratePool;
    var s1 := if s.recalc then GeneratePool(s) else s;
    if s.recalc { GenerateShape(s); }
    PassFine(s1, 0, Quota(s1), c);
  }

  lemma StepFine(s: Server, e: Event, c: Concern)
    requires BaseInv(s) && AllFine(s, c) && MessageFits(s, e) && !e.ReconMsg? && !e.CompletedMsg?
    ensures AllFine(Apply(s, e), c)
  {
    hide BaseInv, UnknownLoop, CheckJobs, ReleaseDeferred;
    match e
    case ReleaseTimer(now) => ReleaseFine(s, now, c);
    case ScheduleTimer => ScheduleFine(s, c);
    case AgentGone(a) => UnknownFine(s, s.order, a, c);
    case Cleanup(_) =>
    case Marks(id, _, _) => if id in s.jobs { FineChanged(s, Apply(s, e), id, c); }
    case ChangeQueue(_, _, _, _) =>
    case ChangeResource(_, _) =>
    case LoginMsg(_, _) =>
    case StartedMsg(id) => StartedFine(s, id, c);
    case _ => UserFine(s, e, c);
  }

  // -------------------------------------------------------------------------
  // Recons
  // -------------------------------------------------------------------------

  // Some item names the job as ended.
  predicate EndsOne(items: seq<ReconItem>, id: JobId) {
    exists i :: 0 <= i < |items| && items[i].Ended? && items[i].id == id
  }

  lemma EndedSplits(items: seq<ReconItem>, id: JobId)
    requires items != []
    ensures EndsOne(items, id) <==> (items[0].Ended? && items[0].id == id) || EndsOne(items[1..], id)
  {
    if EndsOne(items[1..], id) {
      var i :| 0 <= i < |items[1..]| && items[1..][i].Ended? && items[1..][i].id == id;
      assert items[i + 1].Ended? && items[i + 1].id == id;
    }
    if EndsOne(items, id) {
      var i :| 0 <= i < |items| && items[i].Ended? && items[i].id == id;
      if i > 0 { assert items[1..][i - 1] == items[i]; }
    }
  }

  // Such a job is named alive by no item, so it is over after the loop if and only if it was before or
  // some item names it as ended.
  lemma {:induction false} ReconLoopConcerned(s: Server, items: seq<ReconItem>, id: JobId, c: Concern)
    requires TableInv(s) && id in s.jobs && Concerned(s.jobs[id], c)
    requires forall i :: 0 <= i < |items| ==> ReconFits(s, items[i])
    ensures var t := ReconLoop(s, items);
            && id in t.jobs && Concerned(t.jobs[id], c)
            && (Over(t.jobs[id].state) <==> Over(s.jobs[id].state) || EndsOne(items, id))
            && (!Over(t.jobs[id].state) ==> t.jobs[id].state == s.jobs[id].state)
    decreases items
  {
    if items != [] {
      var t := ReconOne(s, items[0]);
      ReconOneJob(s, items[0], id);
      forall i | 0 <= i < |items[1..]| ensures ReconFits(t, items[1..][i]) { ReconOneFits(s, items[0], items[i + 1]); }
      hide ReconOne, TableInv, ReconFits;
      ReconLoopConcerned(t, items[1..], id, c);
      EndedSplits(items, id);
    }
  }

  lemma {:induction false} ReconLoopOther(s: Server, items: seq<ReconItem>, id: JobId, c: Concern)
    requires TableInv(s) && (id in s.jobs ==> !Concerned(s.jobs[id], c))
    ensures var t := ReconLoop(s, items); id in t.jobs ==> id in s.jobs && !Concerned(t.jobs[id], c)
    decreases items
  {
    if items != [] {
      ReconOneOther(s, items[0], id, c);
      hide ReconOne, TableInv;
      ReconLoopOther(ReconOne(s, items[0]), items[1..], id, c);
    }
  }

  lemma ReconOneOther(s: Server, item: ReconItem, id: JobId, c: Concern)
    requires TableInv(s) && (id in s.jobs ==> !Concerned(s.jobs[id], c))
    ensures var t := ReconOne(s, item); TableInv(t) && (id in t.jobs ==> id in s.jobs && !Concerned(t.jobs[id], c))
  {
    if id in s.jobs {
      ReconOneJob(s, item, id);
    } else if item.id in s.jobs {
      ReconOneJob(s, item, item.id);
      assert id !in ReconOne(s, item).jobs.Keys;
    }
  }

  lemma ReconKeepsFineIff(s: Server, a: AgentId, items: seq<ReconItem>, c: Concern)
    requires BaseInv(s) && AllFine(s, c) && MessageFits(s, ReconMsg(a, items))
    ensures AllFine(Recon(s, a, items), c) <==> !EndsConcerned(s, ReconMsg(a, items), c)
  {
    var t := Recon(s, a, items);
    assert t.jobs == ReconLoop(s, items).jobs && TableInv(s);
    hide ReconLoop, Recon, BaseInv, TableInv;
    forall id | id in s.jobs && Concerned(s.jobs[id], c)
      ensures id in t.jobs && (Fine(t.jobs[id], c) <==> !EndsOne(items, id))
    {
      ReconLoopConcerned(s, items, id, c);
    }
    forall id | id in t.jobs && Concerned(t.jobs[id], c) ensures id in s.jobs && Concerned(s.jobs[id], c) {
      if id !in s.jobs || !Concerned(s.jobs[id], c) { ReconLoopOther(s, items, id, c); }
    }
    hide MessageFits, Concerned;
    forall i | 0 <= i < |items| && items[i].Ended? ensures EndsOne(items, items[i].id) { }
  }

  // -------------------------------------------------------------------------
  // All runs
  // -------------------------------------------------------------------------

  // Every step keeps all such jobs in their state if and only if it does not report one as ended.
  lemma StepKeepsFineIff(s: Server, e: Event, c: Concern)
    requires BaseInv(s) && AllFine(s, c) && MessageFits(s, e)
    ensures AllFine(Apply(s, e), c) <==> !EndsConcerned(s, e, c)
  {
    assert TableInv(s);
    hide BaseInv, AllFine, TableInv;
    if e.ReconMsg? { ReconKeepsFineIff(s, e.a, e.items, c); }
    else if e.CompletedMsg? { CompletedFineIff(s, e.id, e.failed, c); }
    else { StepFine(s, e, c); }
  }

  predicate FineThroughout(s: Server, events: seq<Event>, c: Concern)
    decreases events
  {
    AllFine(s, c) && (events == [] || FineThroughout(Apply(s, events[0]), events[1..], c))
  }

  predicate EndsNone(s: Server, events: seq<Event>, c: Concern)
    decreases events
  {
    events == [] || (!EndsConcerned(s, events[0], c) && EndsNone(Apply(s, events[0]), events[1..], c))
  }

  // Over all runs: the listed jobs are all DEFERRED throughout, and the deleted ones in no state, if and
  // only if none is reported as ended.
  lemma {:induction false} FineInAllRunsIff(s: Server, events: seq<Event>, c: Concern)
    requires BaseInv(s) && AllFine(s, c) && IsRun(s, events)
    ensures FineThroughout(s, events, c) <==> EndsNone(s, events, c)
    decreases events
  {
    hide BaseInv, AllFine, Apply, EndsConcerned, MessageFits;
    if events != [] {
      StepKeepsFineIff(s, events[0], c);
      StepBase(s, events[0]);
      if AllFine(Apply(s, events[0]), c) { FineInAllRunsIff(Apply(s, events[0]), events[1..], c); }
    }
  }

  // In every run in which no listed job is reported as ended, every listed job is DEFERRED.
  lemma ListedAreDeferredInAllRuns(s: Server, events: seq<Event>)
    requires Initial(s) && IsRun(s, events) && EndsNone(s, events, OfListed)
    ensures var t := Run(s, events); forall id :: id in t.deferred ==> id in t.jobs && t.jobs[id].state == Deferred
  {
    InitialBase(s);
    RunBase(s, events);
    FineInAllRunsIff(s, events, OfListed);
    FineAtTheEnd(s, events, OfListed);
    ListedAreDeferred(Run(s, events));
  }

  lemma {:induction false} FineAtTheEnd(s: Server, events: seq<Event>, c: Concern)
    requires FineThroughout(s, events, c)
    ensures AllFine(Run(s, events), c)
    decreases events
  {
    hide Apply, AllFine;
    if events != [] { FineAtTheEnd(Apply(s, events[0]), events[1..], c); }
  }

  lemma ListedAreDeferred(s: Server)
    requires BaseInv(s)
    ensures AllFine(s, OfListed) <==> forall id :: id in s.deferred ==> id in s.jobs && s.jobs[id].state == Deferred
  {
    if AllFine(s, OfListed) {
      forall id | id in s.deferred ensures id in s.jobs && s.jobs[id].state == Deferred { assert Listed(s.jobs[id]) && Fine(s.jobs[id], OfListed); }
    }
  }

  // And for the counters: while no deleted job is reported as ended, no job is removed in a counted state.
  lemma {:induction false} NothingUncounted(s: Server, events: seq<Event>, st: JobState, qs: seq<QueueId>)
    requires BaseInv(s) && IsRun(s, events) && AllFine(s, OfDeleted) && EndsNone(s, events, OfDeleted) && st != NoState
    ensures Removals(s, events, st) == 0 && RemovalsIn(s, events, qs, st) == 0
    decreases events
  {
    hide BaseInv, Apply, EndsConcerned, MessageFits;
    if events != [] {
      StepKeepsFineIff(s, events[0], OfDeleted);
      StepBase(s, events[0]);
      NothingUncounted(Apply(s, events[0]), events[1..], st, qs);
      NotRemovesIn(s, events[0], qs, st);
    }
  }

  // In every run in which no deleted job is reported as ended, every counter is exact.
  lemma CountersExact(s: Server, events: seq<Event>, st: JobState, q: QueueId)
    requires Initial(s) && IsRun(s, events) && EndsNone(s, events, OfDeleted) && st != NoState
    ensures var t := Run(s, events);
            && t.stats.Get(st) == |JobsIn(t, st)|
            && (q in t.qstats ==> t.qstats[q].Get(st) == |JobsOf(t, q, st)|)
  {
    InitialBase(s);
    NothingUncounted(s, events, st, [q]);
    CountersInAllRuns(s, events, st, q);
    hide Run, IsRun, EndsNone, Removals, RemovalsIn, Initial, BaseInv;
  }
}
