/**
 The order of the candidate pool against the priorities as they are now. The pool is sorted when it is
 rebuilt; a change of a priority in between does not ask for it to be rebuilt.
 */
module SchedOrder {
  import opened Options
  import opened JobStates
  import opened SchedState
  import opened SchedSteps
  import opened SchedRun
  import opened SchedCounters
  import opened SchedPool
  import opened SchedPass

  // A slot with a job that waits to be started.
  predicate InLine(s: Server, slot: Option<JobId>) {
    slot.Some? && Waiting(s, slot.value) && Known(s, slot.value)
  }

  // Of two waiting jobs in the pool the one in front ranks higher.
  predicate Ranked(s: Server) {
    forall i, k :: 0 <= i < k < |s.pool| && InLine(s, s.pool[i]) && InLine(s, s.pool[k]) ==>
      Before(s, s.pool[i].value, s.pool[k].value)
  }

  predicate InOrderOrDue(s: Server) {
    s.recalc || Ranked(s)
  }

  // A step that leaves the pool alone and, unless it asks for it to be rebuilt, makes no job wait and
  // changes the queue and the priorities of no job that waits.
  ghost predicate Still(s: Server, t: Server) {
    && t.pool == s.pool && (s.recalc ==> t.recalc)
    && (!t.recalc ==> forall id: JobId :: InLine(t, Some(id)) ==> SamePlace(s, t, id))
  }

  predicate SamePlace(s: Server, t: Server, id: JobId)
    requires InLine(t, Some(id))
  {
    && InLine(s, Some(id))
    && t.jobs[id].queue == s.jobs[id].queue && t.jobs[id].priority == s.jobs[id].priority
    && t.queues[t.jobs[id].queue].priority == s.queues[s.jobs[id].queue].priority
  }

  lemma StillInOrder(s: Server, t: Server)
    requires Still(s, t) && InOrderOrDue(s)
    ensures InOrderOrDue(t)
  {
    if !t.recalc {
      forall i, k | 0 <= i < k < |t.pool| && InLine(t, t.pool[i]) && InLine(t, t.pool[k])
        ensures Before(t, t.pool[i].value, t.pool[k].value)
      {
        var a, b := t.pool[i].value, t.pool[k].value;
        assert SamePlace(s, t, a) && SamePlace(s, t, b);
        assert InLine(s, s.pool[i]) && InLine(s, s.pool[k]);
      }
    }
  }

  lemma StillChain(s: Server, t: Server, u: Server)
    requires Still(s, t) && Still(t, u)
    ensures Still(s, u)
  {
    if !u.recalc {
      forall id: JobId | InLine(u, Some(id)) ensures SamePlace(s, u, id) { assert SamePlace(t, u, id) && SamePlace(s, t, id); }
    }
  }

  // -------------------------------------------------------------------------
  // Every step but a change of a priority in place
  // -------------------------------------------------------------------------

  lemma SameStill(s: Server, t: Server)
    requires t.jobs == s.jobs && t.pool == s.pool && t.recalc == s.recalc && t.qstats == s.qstats && t.queues.Keys == s.queues.Keys
    requires forall q :: q in s.queues ==> t.queues[q].priority == s.queues[q].priority
    ensures Still(s, t)
  {
    forall id: JobId | InLine(t, Some(id)) ensures SamePlace(s, t, id) { assert t.jobs[id].queue in s.queues.Keys; }
  }

  lemma ChangeStill(s: Server, s1: Server, id: JobId, to: JobState, q: Option<QueueId>, dirty: bool)
    requires Known(s, id) && Edits(s, s1, id) && s1.pool == s.pool && (s.recalc ==> s1.recalc)
    requires q.Some? ==> q.value in s.qstats
    requires to == Pending && s.jobs[id].state == Pending && q.None? ==>
               s1.jobs[id].priority == s.jobs[id].priority && (s.jobs[id].deleted ==> s1.jobs[id].deleted)
    ensures Still(s, ChangeJobState(s1, id, to, q, dirty))
  {
    var t := ChangeJobState(s1, id, to, q, dirty);
    ChangeShape(s1, id, to, q, dirty);
    ChangeAsks(s1, id, to, q, dirty);
    hide ChangeJobState;
    if !t.recalc {
      forall x: JobId | InLine(t, Some(x)) ensures SamePlace(s, t, x) {
        assert t.jobs[x].queue in t.qstats.Keys;
        if x != id { assert t.jobs[x] == s.jobs[x]; }
      }
    }
  }

  // A job that enters a waiting state, or changes queues in one, asks for a new pool.
  lemma ChangeAsks(s: Server, id: JobId, to: JobState, q: Option<QueueId>, dirty: bool)
    requires Known(s, id) && (q.Some? ==> q.value in s.qstats)
    ensures var t := ChangeJobState(s, id, to, q, dirty);
            && (s.recalc ==> t.recalc)
            && (!t.recalc && (s.jobs[id].state != to || q.Some?) ==> to != Pending && to != Deferred && to != Holding)
  {
    hide Recount, Entered, Left;
  }

  // The step changes a priority and does not ask for a new pool.
  predicate Reranks(s: Server, e: Event) {
    match e
    case Modify(id, m) =>
      && !ModRefused(s, id, m) && s.jobs[id].state == Pending && ModTarget(s.jobs[id], m) == Pending && m.queue.None?
      && m.priority.Some? && m.priority.value != s.jobs[id].priority
    case ChangeQueue(q, _, _, priority) => q in s.queues && priority != s.queues[q].priority
    case _ => false
  }

  lemma AddStill(s: Server, id: JobId, r: Request)
    ensures Still(s, AddJob(s, id, r))
  {
    SameStill(s, s);
    if !AddRefused(s, id, r) {
      var s1 := AddEntered(s, id, r);
      ChangeShape(s1, id, AddTarget(r), None, true);
      ChangeAsks(s1, id, AddTarget(r), None, true);
    }
    hide ChangeJobState;
  }

  lemma UserStill(s: Server, e: Event)
    requires (e.Modify? || e.Delete? || e.Signal?) && !Reranks(s, e)
    ensures Still(s, Apply(s, e))
  {
    SameStill(s, s);
    hide ChangeJobState, Still, Deallocate, ModList;
    match e
    case Modify(id, m) =>
      if !ModRefused(s, id, m) {
        ChangeStill(s, ModEdited(s, id, m), id, ModTarget(s.jobs[id], m), m.queue, ModDirty(s.jobs[id], m));
      }
    case Delete(id) =>
      if Known(s, id) && !s.jobs[id].deleted { ChangeStill(s, DeleteMarked(s, id), id, NoState, None, false); }
    case Signal(id) =>
      if Known(s, id) && !s.jobs[id].deleted && s.jobs[id].state == Unknown {
        ChangeStill(s, NeedsReturned(s, id), id, Exited, None, true);
      }
  }

  lemma EditStill(s: Server, s1: Server, id: JobId)
    requires Edits(s, s1, id) && s1.pool == s.pool && s1.recalc == s.recalc
    requires s1.jobs[id].priority == s.jobs[id].priority && s1.jobs[id].deleted == s.jobs[id].deleted
    ensures Still(s, s1)
  {
  }

  lemma {:induction false} ReleaseStill(s: Server, list: seq<JobId>, now: int)
    ensures Still(s, ReleaseLoop(s, list, now))
    decreases list
  {
    SameStill(s, s);
    if !(list == [] || !Known(s, list[0]) || now < s.jobs[list[0]].deferTime) {
      ChangeStill(s, Undeferred(s, list[0]), list[0], Pending, None, false);
      hide ChangeJobState, Still;
      ReleaseStill(Released(s, list[0]), list[1..], now);
      StillChain(s, Released(s, list[0]), ReleaseLoop(s, list, now));
    }
  }

  lemma ReportStill(s: Server, e: Event)
    requires e.StartedMsg? || e.CompletedMsg?
    ensures Still(s, Apply(s, e))
  {
    SameStill(s, s);
    if Known(s, e.id) {
      var s1 := if e.StartedMsg? then s else NeedsReturned(s, e.id);
      var to := if e.StartedMsg? then Running else FinalState(e.failed);
      hide ChangeJobState, Still, Deallocate;
      ChangeStill(s, s1, e.id, to, None, true);
      ChangeShape(s1, e.id, to, None, true);
      var t := ChangeJobState(s1, e.id, to, None, true);
      EditStill(t, ClearStarted(t, e.id), e.id);
      StillChain(s, t, ClearStarted(t, e.id));
    }
  }

  lemma ReconOneStill(s: Server, item: ReconItem)
    ensures Still(s, ReconOne(s, item))
  {
    SameStill(s, s);
    hide ChangeJobState, Still;
    if Known(s, item.id) && !item.NotKnown? {
      ChangeStill(s, s, item.id, if item.Ended? then FinalState(item.failed) else Running, None, item.Ended?);
    }
  }

  lemma {:induction false} ReconStill(s: Server, items: seq<ReconItem>)
    ensures Still(s, ReconLoop(s, items))
    decreases items
  {
    SameStill(s, s);
    hide Still, ReconOne;
    if items != [] {
      ReconOneStill(s, items[0]);
      ReconStill(ReconOne(s, items[0]), items[1..]);
      StillChain(s, ReconOne(s, items[0]), ReconLoop(s, items));
    }
  }

  lemma {:induction false} UnknownStill(s: Server, list: seq<JobId>, a: AgentId)
    ensures Still(s, UnknownLoop(s, list, a))
    decreases list
  {
    SameStill(s, s);
    hide Still, ChangeJobState;
    if list != [] {
      if RunsOn(s, list[0], a) {
        ChangeStill(s, FlagsCleared(s, list[0]), list[0], Unknown, None, true);
        UnknownStill(UnknownOne(s, list[0]), list[1..], a);
        StillChain(s, UnknownOne(s, list[0]), UnknownLoop(s, list, a));
      } else {
        UnknownStill(s, list[1..], a);
      }
    }
  }

  lemma StartStill(s: Server, id: JobId)
    requires Known(s, id)
    ensures Still(s, Start(s, id))
  {
  }

  lemma {:induction false} PassStill(s: Server, i: nat, quota: int)
    ensures Still(s, PassFrom(s, i, quota))
    decreases |s.pool| - i
  {
    SameStill(s, s);
    hide Start, Startable, Known, Still;
    if i < |s.pool| {
      if Startable(s, s.pool[i]) {
        var t := Start(s, s.pool[i].value);
        StartFacts(s, s.pool[i]);
        StartStill(s, s.pool[i].value);
        if quota > 1 {
          PassStill(t, i + 1, quota - 1);
          StillChain(s, t, PassFrom(s, i, quota));
        }
      } else {
        PassStill(s, i + 1, quota);
      }
    }
  }

  // -------------------------------------------------------------------------
  // Rebuilding and removing
  // -------------------------------------------------------------------------

  lemma RebuiltIsRanked(s: Server)
    requires TableInv(s)
    ensures Ranked(GeneratePool(s))
  {
    var list := PendingJobs(s, s.order);
    hide Sorted, PendingJobs, InPoolOrder, Slots, TableInv;
    SortedOrdered(s, list);
    if s.stats.Get(Pending) != 0 { SlotsAreRanked(s, GeneratePool(s), Sorted(s, list)); }
  }

  lemma SlotsAreRanked(s: Server, g: Server, sorted: seq<JobId>)
    requires (forall x :: x in sorted ==> Known(s, x)) && InPoolOrder(s, sorted)
    requires g.jobs == s.jobs && g.queues == s.queues && g.qstats == s.qstats && g.pool == Slots(sorted)
    ensures Ranked(g)
  {
    hide Slots;
    forall i, k | 0 <= i < k < |g.pool| && InLine(g, g.pool[i]) && InLine(g, g.pool[k])
      ensures Before(g, g.pool[i].value, g.pool[k].value)
    {
      assert Before(s, sorted[i], sorted[k]);
    }
  }

  lemma ScheduleInOrder(s: Server)
    requires TableInv(s) && InOrderOrDue(s)
    ensures InOrderOrDue(CheckJobs(s))
  {
    if s.recalc { RebuiltIsRanked(s); }
    hide PassFrom, GeneratePool, Ranked, TableInv;
    var s1 := if s.recalc then GeneratePool(s) else s;
    PassStill(s1, 0, Quota(s1));
    StillInOrder(s1, PassFrom(s1, 0, Quota(s1)));
  }

  lemma CleanupInOrder(s: Server, id: JobId)
    requires SlotsDistinct(s.pool) && InOrderOrDue(s)
    ensures InOrderOrDue(CleanupJob(s, id))
  {
    var t := CleanupJob(s, id);
    ClearedSlots(s.pool, id);
    hide SlotsDistinct, ClearSlots;
    if t != s && !t.recalc {
      forall i, k | 0 <= i < k < |t.pool| && InLine(t, t.pool[i]) && InLine(t, t.pool[k])
        ensures Before(t, t.pool[i].value, t.pool[k].value)
      {
        assert InLine(s, s.pool[i]) && InLine(s, s.pool[k]);
      }
    }
  }

  lemma StepStill(s: Server, e: Event)
    requires !e.Cleanup? && !e.ScheduleTimer? && !Reranks(s, e)
    ensures Still(s, Apply(s, e))
  {
    hide Still, AddJob, ReleaseLoop, ReconLoop, UnknownLoop;
    if e.Add? { AddStill(s, e.id, e.request); }
    else if e.ReleaseTimer? { ReleaseStill(s, s.deferred, e.now); }
    else if e.ReconMsg? {
      ReconStill(s, e.items);
      SameStill(ReconLoop(s, e.items), Apply(s, e));
      StillChain(s, ReconLoop(s, e.items), Apply(s, e));
    }
    else if e.AgentGone? {
      UnknownStill(s, s.order, e.a);
      SameStill(UnknownLoop(s, s.order, e.a), Apply(s, e));
      StillChain(s, UnknownLoop(s, s.order, e.a), Apply(s, e));
    }
    else if e.Marks? { MarksStill(s, e); }
    else if e.ChangeQueue? || e.ChangeResource? || e.LoginMsg? { SameStill(s, Apply(s, e)); }
    else {
      hide Apply;
      if e.StartedMsg? || e.CompletedMsg? { ReportStill(s, e); } else { UserStill(s, e); }
    }
  }

  lemma MarksStill(s: Server, e: Event)
    requires e.Marks?
    ensures Still(s, Apply(s, e))
  {
    if e.id in s.jobs { EditStill(s, Apply(s, e), e.id); } else { SameStill(s, Apply(s, e)); }
  }

  // -------------------------------------------------------------------------
  // Exactly which steps keep the order
  // -------------------------------------------------------------------------

  // The queue and job priority a job will have after the step.
  function QueueRank(s: Server, e: Event, id: JobId): int
    requires Known(s, id)
  {
    if e.ChangeQueue? && e.q == s.jobs[id].queue then e.priority else s.queues[s.jobs[id].queue].priority
  }

  function JobRank(s: Server, e: Event, id: JobId): int
    requires Known(s, id)
  {
    if e.Modify? && e.id == id && e.mod.priority.Some? then e.mod.priority.value else s.jobs[id].priority
  }

  predicate StillBefore(s: Server, e: Event, a: JobId, b: JobId)
    requires Known(s, a) && Known(s, b)
  {
    var qa, qb, pa, pb := QueueRank(s, e, a), QueueRank(s, e, b), JobRank(s, e, a), JobRank(s, e, b);
    qa > qb || (qa == qb && (pa > pb || (pa == pb && a <= b)))
  }

  // No two waiting jobs of the pool change places by the new priorities.
  predicate Undisturbed(s: Server, e: Event) {
    forall i, k :: 0 <= i < k < |s.pool| && InLine(s, s.pool[i]) && InLine(s, s.pool[k]) ==>
      StillBefore(s, e, s.pool[i].value, s.pool[k].value)
  }

  lemma RerankedJob(s: Server, e: Event, id: JobId)
    requires TableInv(s) && Reranks(s, e)
    ensures var t := Apply(s, e);
            && t.pool == s.pool && t.recalc == s.recalc
            && (InLine(t, Some(id)) <==> InLine(s, Some(id)))
            && (InLine(s, Some(id)) ==>
                  t.queues[t.jobs[id].queue].priority == QueueRank(s, e, id) && t.jobs[id].priority == JobRank(s, e, id))
  {
    if e.Modify? {
      ChangeShape(ModEdited(s, e.id, e.mod), e.id, Pending, None, ModDirty(s.jobs[e.id], e.mod));
      PlainChange(ModEdited(s, e.id, e.mod), e.id, ModDirty(s.jobs[e.id], e.mod));
      hide ChangeJobState, TableInv, ModDirty, ModList, Deallocate;
    }
  }

  lemma PlainChange(s: Server, id: JobId, dirty: bool)
    requires Known(s, id) && s.jobs[id].state == Pending
    ensures var t := ChangeJobState(s, id, Pending, None, dirty); t.recalc == s.recalc && t.qstats == s.qstats
  {
  }

  lemma RerankInOrderIff(s: Server, e: Event)
    requires TableInv(s) && Reranks(s, e) && !s.recalc
    ensures InOrderOrDue(Apply(s, e)) <==> Undisturbed(s, e)
  {
    var t := Apply(s, e);
    forall id: JobId
      ensures t.pool == s.pool && t.recalc == s.recalc && (InLine(t, Some(id)) <==> InLine(s, Some(id)))
      ensures InLine(s, Some(id)) ==>
                t.queues[t.jobs[id].queue].priority == QueueRank(s, e, id) && t.jobs[id].priority == JobRank(s, e, id)
    {
      RerankedJob(s, e, id);
    }
    RerankedJob(s, e, 0);
    hide Apply, Reranks, TableInv, QueueRank, JobRank;
    forall a: JobId, b: JobId | InLine(s, Some(a)) && InLine(s, Some(b)) ensures Before(t, a, b) <==> StillBefore(s, e, a, b) { }
    hide Before, StillBefore;
    assert forall i :: 0 <= i < |s.pool| && s.pool[i].Some? ==> s.pool[i] == Some(s.pool[i].value);
  }

  // A step keeps the pool in the order of the priorities, unless it is due to be rebuilt, if and only if
  // it changes no priority in place, or makes no two waiting jobs change places.
  lemma StepKeepsOrderIff(s: Server, e: Event)
    requires TableInv(s) && SlotsDistinct(s.pool) && InOrderOrDue(s)
    ensures InOrderOrDue(Apply(s, e)) <==> s.recalc || !Reranks(s, e) || Undisturbed(s, e)
  {
    if !Reranks(s, e) {
      hide InOrderOrDue, TableInv, SlotsDistinct, Still;
      if e.Cleanup? { CleanupInOrder(s, e.id); }
      else if e.ScheduleTimer? { ScheduleInOrder(s); }
      else {
        StepStill(s, e);
        StillInOrder(s, Apply(s, e));
      }
    } else if s.recalc {
      RerankedJob(s, e, 0);
    } else {
      RerankInOrderIff(s, e);
    }
  }

  // -------------------------------------------------------------------------
  // All runs
  // -------------------------------------------------------------------------

  predicate NeverDisturbed(s: Server, events: seq<Event>)
    decreases events
  {
    events == [] || ((s.recalc || !Reranks(s, events[0]) || Undisturbed(s, events[0])) && NeverDisturbed(Apply(s, events[0]), events[1..]))
  }

  predicate OrderThroughout(s: Server, events: seq<Event>)
    decreases events
  {
    InOrderOrDue(s) && (events == [] || OrderThroughout(Apply(s, events[0]), events[1..]))
  }

  // Over all runs: the pool is in order or due to be rebuilt throughout if and only if no step makes two
  // waiting jobs change places.
  lemma {:induction false} OrderInAllRunsIff(s: Server, events: seq<Event>)
    requires BaseInv(s) && Counted(s) && PoolInv(s) && InOrderOrDue(s) && IsRun(s, events)
    ensures OrderThroughout(s, events) <==> NeverDisturbed(s, events)
    ensures NeverDisturbed(s, events) ==> InOrderOrDue(Run(s, events)) && PoolInv(Run(s, events)) && BaseInv(Run(s, events))
    decreases events
  {
    if events != [] {
      StepKeepsOrderIff(s, events[0]);
      hide BaseInv, Counted, PoolInv, Apply, InOrderOrDue, Reranks, Undisturbed, MessageFits;
      StepBase(s, events[0]);
      StepPool(s, events[0]);
      StepCounted(s, events[0]);
      if InOrderOrDue(Apply(s, events[0])) { OrderInAllRunsIff(Apply(s, events[0]), events[1..]); }
    }
  }

  // -------------------------------------------------------------------------
  // The highest rank first
  // -------------------------------------------------------------------------

  // Visits leave rank and queue of every job alone and make none wait.
  lemma {:induction false} VisitedStill(s: Server, i: nat)
    ensures Still(s, Visited(s, i)) && Visited(s, i).recalc == s.recalc
  {
    SameStill(s, s);
    if i > 0 {
      VisitedStill(s, i - 1);
      var v := Visited(s, i - 1);
      if i - 1 < |v.pool| && Startable(v, v.pool[i - 1]) {
        StartStill(v, v.pool[i - 1].value);
        hide Startable, Still;
        StillChain(s, v, Start(v, v.pool[i - 1].value));
      }
    }
  }

  lemma HighestFirst(s: Server, i: nat, x: JobId)
    requires BaseInv(s) && PoolInv(s) && Ranked(s) && !s.recalc && NeedsNonNegative(s) && i < |s.pool|
    requires Startable(Visited(s, i), s.pool[i]) && Startable(Visited(s, i), Some(x))
    ensures s.pool[i].Some? && Known(s, s.pool[i].value) && Known(s, x) && Before(s, s.pool[i].value, x)
  {
    hide Startable, Visited, BaseInv, NeedsNonNegative;
    StartableIsWaiting(s, i, s.pool[i]);
    StartableIsWaiting(s, i, Some(x));
    var k := WaitingSlot(s, x);
    hide PoolInv;
    if k < i { NoOvertaking(s, i, k); }
    else if k == i { hide Ranked; } else { assert InLine(s, s.pool[k]); }
  }

  lemma WaitingSlot(s: Server, x: JobId) returns (k: nat)
    requires PoolInv(s) && !s.recalc && Waiting(s, x)
    ensures k < |s.pool| && s.pool[k] == Some(x)
  {
    assert Some(x) in s.pool;
    k :| 0 <= k < |s.pool| && s.pool[k] == Some(x);
  }

  lemma StartableIsWaiting(s: Server, i: nat, slot: Option<JobId>)
    requires BaseInv(s) && !s.recalc && Startable(Visited(s, i), slot)
    ensures InLine(s, slot)
  {
    var v := Visited(s, i);
    VisitedJobs(s, i);
    hide Visited;
    assert JobOk(v.jobs[slot.value]);
    VisitedStill(s, i);
    assert InLine(v, Some(slot.value));
  }

  lemma {:induction false} VisitedJobs(s: Server, i: nat)
    requires BaseInv(s)
    ensures BaseInv(Visited(s, i))
  {
    if i > 0 {
      VisitedJobs(s, i - 1);
      var v := Visited(s, i - 1);
      if i - 1 < |v.pool| && Startable(v, v.pool[i - 1]) { StartBase(v, v.pool[i - 1].value); }
      hide BaseInv;
    }
  }

  // In every run in which no priority change makes two waiting jobs change places: whenever a pass starts
  // a job, no job of the whole table that could be started at that moment ranks higher.
  lemma HighestFirstInAllRuns(s: Server, events: seq<Event>, i: nat, x: JobId)
    requires Initial(s) && IsRun(s, events) && NeverDisturbed(s, events) && NeedsNonNegative(Run(s, events))
    requires var t := Run(s, events); var t1 := if t.recalc then GeneratePool(t) else t;
             i < |t1.pool| && Startable(Visited(t1, i), t1.pool[i]) && Startable(Visited(t1, i), Some(x))
    ensures var t := Run(s, events); var t1 := if t.recalc then GeneratePool(t) else t;
            t1.pool[i].Some? && Known(t, t1.pool[i].value) && Known(t, x) && Before(t, t1.pool[i].value, x)
  {
    hide Run, IsRun, NeverDisturbed, Initial, BaseInv, PoolInv, Counted, Startable, Visited, GeneratePool, Ranked;
    var t := Run(s, events);
    var t1 := if t.recalc then GeneratePool(t) else t;
    InitialOrder(s);
    OrderInAllRunsIff(s, events);
    RunCounted(s, events);
    if t.recalc { RebuiltSound(t); }
    HighestFirst(t1, i, x);
  }

  lemma InitialOrder(s: Server)
    requires Initial(s)
    ensures BaseInv(s) && Counted(s) && PoolInv(s) && InOrderOrDue(s)
  {
    InitialBase(s);
    InitialCounted(s);
  }

  lemma RebuiltSound(t: Server)
    requires BaseInv(t) && Counted(t)
    ensures var g := GeneratePool(t);
            && BaseInv(g) && PoolInv(g) && Ranked(g) && g == t.(pool := g.pool, poolSize := g.poolSize, recalc := false)
  {
    assert Tally(t, Pending, 0) && Tally(t, Deferred, 0) && Tally(t, Holding, 0);
    RebuildPool(t);
    RebuiltIsRanked(t);
    GenerateShape(t);
    hide GeneratePool, Ranked, PoolInv;
    QueuesBase(t, GeneratePool(t));
  }

  lemma {:induction false} RunCounted(s: Server, events: seq<Event>)
    requires BaseInv(s) && Counted(s) && IsRun(s, events)
    ensures Counted(Run(s, events))
    decreases events
  {
    hide BaseInv, Counted, Apply, MessageFits;
    if events != [] {
      StepBase(s, events[0]);
      StepCounted(s, events[0]);
      RunCounted(Apply(s, events[0]), events[1..]);
    }
  }
}
