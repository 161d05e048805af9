/**
 The candidate pool: what it holds at every step, that building it never writes past its end, and
 that it is sorted.
 */
module SchedPool {
  import opened Options
  import opened JobStates
  import opened Sequences
  import opened SchedState
  import opened SchedSteps
  import opened SchedRun
  import opened SchedCounters

  predicate SlotsDistinct(pool: seq<Option<JobId>>) {
    forall i, k :: 0 <= i < k < |pool| && pool[i].Some? ==> pool[i] != pool[k]
  }

  predicate Waiting(s: Server, id: JobId) {
    id in s.jobs && !s.jobs[id].deleted && s.jobs[id].state == Pending
  }

  // The pool fits its allocation, names each job at most once and only jobs of the table, and names
  // every waiting job unless it is due to be rebuilt.
  ghost predicate PoolInv(s: Server) {
    && SlotsDistinct(s.pool)
    && |s.pool| <= s.poolSize
    && (forall i :: 0 <= i < |s.pool| && s.pool[i].Some? ==> s.pool[i].value in s.jobs)
    && (!s.recalc ==> forall id: JobId :: Waiting(s, id) ==> Some(id) in s.pool)
  }

  // A step that leaves the pool alone, removes no job, and makes no job waiting without asking for
  // the pool to be rebuilt.
  ghost predicate Steady(s: Server, t: Server) {
    && t.pool == s.pool && t.poolSize == s.poolSize
    && s.jobs.Keys <= t.jobs.Keys
    && (s.recalc ==> t.recalc)
    && (!t.recalc ==> forall id: JobId :: Waiting(t, id) ==> Waiting(s, id))
  }

  lemma SteadyPool(s: Server, t: Server)
    requires PoolInv(s) && Steady(s, t)
    ensures PoolInv(t)
  {
    forall i | 0 <= i < |t.pool| && t.pool[i].Some? ensures t.pool[i].value in t.jobs { assert s.pool[i].value in s.jobs.Keys; }
  }

  lemma SteadyChain(s: Server, t: Server, u: Server)
    requires Steady(s, t) && Steady(t, u)
    ensures Steady(s, u)
  {
  }

  // -------------------------------------------------------------------------
  // Every step but the rebuild and the removal of a job is steady
  // -------------------------------------------------------------------------

  lemma EditsSteady(s: Server, s1: Server, id: JobId)
    requires Edits(s, s1, id) && s1.pool == s.pool && s1.poolSize == s.poolSize && (s.recalc ==> s1.recalc)
    requires s.jobs[id].deleted ==> s1.jobs[id].deleted
    ensures Steady(s, s1)
  {
  }

  lemma ChangeSteady(s: Server, s1: Server, id: JobId, to: JobState, q: Option<QueueId>, dirty: bool)
    requires Known(s, id) && Edits(s, s1, id) && s1.pool == s.pool && s1.poolSize == s.poolSize && (s.recalc ==> s1.recalc)
    requires (s.jobs[id].deleted ==> s1.jobs[id].deleted) || to != Pending
    requires q.Some? ==> q.value in s.qstats
    ensures Steady(s, ChangeJobState(s1, id, to, q, dirty))
  {
    ChangeShape(s1, id, to, q, dirty);
    hide ChangeJobState;
  }

  lemma AddSteady(s: Server, id: JobId, r: Request)
    ensures Steady(s, AddJob(s, id, r))
  {
    if !AddRefused(s, id, r) {
      ChangeShape(AddEntered(s, id, r), id, AddTarget(r), None, true);
    }
    hide ChangeJobState;
  }

  lemma UserSteady(s: Server, e: Event)
    requires e.Modify? || e.Delete? || e.Signal?
    ensures Steady(s, Apply(s, e))
  {
    hide ChangeJobState, Steady;
    match e
    case Modify(id, m) =>
      if !ModRefused(s, id, m) {
        ChangeSteady(s, ModEdited(s, id, m), id, ModTarget(s.jobs[id], m), m.queue, ModDirty(s.jobs[id], m));
      } else { SameSteady(s, s); }
    case Delete(id) =>
      if Known(s, id) && !s.jobs[id].deleted { ChangeSteady(s, DeleteMarked(s, id), id, NoState, None, false); }
      else { SameSteady(s, s); }
    case Signal(id) =>
      if Known(s, id) && !s.jobs[id].deleted && s.jobs[id].state == Unknown {
        ChangeSteady(s, NeedsReturned(s, id), id, Exited, None, true);
      } else { SameSteady(s, s); }
  }

  lemma SameSteady(s: Server, t: Server)
    requires t.jobs == s.jobs && t.pool == s.pool && t.poolSize == s.poolSize && t.recalc == s.recalc
    ensures Steady(s, t)
  {
  }

  lemma {:induction false} ReleaseSteady(s: Server, list: seq<JobId>, now: int)
    ensures Steady(s, ReleaseLoop(s, list, now))
    decreases list
  {
    if !(list == [] || !Known(s, list[0]) || now < s.jobs[list[0]].deferTime) {
      ChangeSteady(s, Undeferred(s, list[0]), list[0], Pending, None, false);
      hide ChangeJobState, Steady;
      ReleaseSteady(Released(s, list[0]), list[1..], now);
      SteadyChain(s, Released(s, list[0]), ReleaseLoop(s, list, now));
    }
  }

  lemma ReportSteady(s: Server, e: Event)
    requires e.StartedMsg? || e.CompletedMsg?
    ensures Steady(s, Apply(s, e))
  {
    if Known(s, e.id) {
      var s1 := if e.StartedMsg? then s else NeedsReturned(s, e.id);
      var to := if e.StartedMsg? then Running else FinalState(e.failed);
      ChangeSteady(s, s1, e.id, to, None, true);
      ChangeShape(s1, e.id, to, None, true);
      hide ChangeJobState, Steady;
      var t := ChangeJobState(s1, e.id, to, None, true);
      EditsSteady(t, ClearStarted(t, e.id), e.id);
      SteadyChain(s, t, ClearStarted(t, e.id));
    }
  }

  lemma {:induction false} ReconSteady(s: Server, items: seq<ReconItem>)
    ensures Steady(s, ReconLoop(s, items))
    decreases items
  {
    if items != [] {
      var item := items[0];
      var t := ReconOne(s, item);
      assert Steady(s, t) by {
        if Known(s, item.id) && !item.NotKnown? {
          ChangeSteady(s, s, item.id, if item.Ended? then FinalState(item.failed) else Running, None, item.Ended?);
        }
        hide ChangeJobState;
      }
      hide Steady, ReconOne;
      ReconSteady(t, items[1..]);
      SteadyChain(s, t, ReconLoop(s, items));
    }
  }

  lemma {:induction false} UnknownSteady(s: Server, list: seq<JobId>, a: AgentId)
    ensures Steady(s, UnknownLoop(s, list, a))
    decreases list
  {
    if list != [] {
      if RunsOn(s, list[0], a) {
        var t := UnknownOne(s, list[0]);
        ChangeSteady(s, FlagsCleared(s, list[0]), list[0], Unknown, None, true);
        hide Steady, ChangeJobState;
        UnknownSteady(t, list[1..], a);
        SteadyChain(s, t, UnknownLoop(s, list, a));
      } else {
        UnknownSteady(s, list[1..], a);
      }
    }
  }

  lemma {:induction false} PassSteady(s: Server, i: nat, quota: int)
    ensures Steady(s, PassFrom(s, i, quota))
    decreases |s.pool| - i
  {
    if i < |s.pool| {
      if Startable(s, s.pool[i]) {
        StartFacts(s, s.pool[i]);
        var t := Start(s, s.pool[i].value);
        assert Steady(s, t);
        hide Start, Startable, Known, Steady;
        if quota > 1 {
          PassSteady(t, i + 1, quota - 1);
          SteadyChain(s, t, PassFrom(s, i, quota));
        }
      } else {
        PassSteady(s, i + 1, quota);
      }
    }
  }

  // -------------------------------------------------------------------------
  // Removing a job
  // -------------------------------------------------------------------------

  lemma {:induction false} ClearedSlots(pool: seq<Option<JobId>>, id: JobId)
    requires SlotsDistinct(pool)
    ensures var r := ClearSlots(pool, id);
            && |r| == |pool|
            && (forall i :: 0 <= i < |pool| ==> r[i] == if pool[i] == Some(id) then None else pool[i])
  {
    if pool != [] && pool[0] != Some(id) { ClearedSlots(pool[1..], id); }
  }

  lemma CleanupPool(s: Server, id: JobId)
    requires PoolInv(s)
    ensures PoolInv(CleanupJob(s, id))
  {
    ClearedSlots(s.pool, id);
    var t := CleanupJob(s, id);
    if t != s {
      forall x: JobId | Waiting(t, x) && !t.recalc ensures Some(x) in t.pool {
        assert Waiting(s, x) && Some(x) in s.pool;
        var i :| 0 <= i < |s.pool| && s.pool[i] == Some(x);
        assert t.pool[i] == Some(x);
      }
    }
  }

  // -------------------------------------------------------------------------
  // Rebuilding
  // -------------------------------------------------------------------------

  lemma {:induction false} PendingCount(s: Server, list: seq<JobId>)
    ensures |PendingJobs(s, list)| <= Sum(list, s.jobs, W(Pending))
    ensures Distinct(list) ==> Distinct(PendingJobs(s, list))
  {
    if list != [] {
      PendingCount(s, list[1..]);
      if Distinct(list) { assert list[0] !in list[1..]; }
    }
  }

  lemma {:induction false} SumNonNegative(order: seq<JobId>, jobs: map<JobId, Job>, st: JobState)
    ensures Sum(order, jobs, W(st)) >= 0
  {
    if order != [] { SumNonNegative(order[1..], jobs, st); }
  }

  lemma {:induction false} InsertDistinct(s: Server, id: JobId, list: seq<JobId>)
    requires Known(s, id) && (forall x :: x in list ==> Known(s, x)) && Distinct(list) && id !in list
    ensures Distinct(InsertSorted(s, id, list))
  {
    if !(list == [] || Before(s, id, list[0])) {
      assert list[0] in list && list[0] !in list[1..];
      InsertDistinct(s, id, list[1..]);
    }
  }

  lemma {:induction false} SortedDistinct(s: Server, list: seq<JobId>)
    requires (forall x :: x in list ==> Known(s, x)) && Distinct(list)
    ensures Distinct(Sorted(s, list))
  {
    if list != [] {
      assert list[0] in list && list[0] !in list[1..];
      SortedDistinct(s, list[1..]);
      InsertDistinct(s, list[0], Sorted(s, list[1..]));
    }
  }

  // The array is large enough for every pending job before it is filled. It is left alone while it holds all
  // jobs that wait, and otherwise gets room for half as many again.
  lemma RebuildFits(s: Server)
    requires CounterFor(s, Pending) && CounterFor(s, Deferred) && CounterFor(s, Holding)
    ensures |PendingJobs(s, s.order)| <= s.stats.Get(Pending) <= GeneratePool(s).poolSize
    ensures var size, total := GeneratePool(s).poolSize, s.stats.Get(Pending) + s.stats.Get(Deferred) + s.stats.Get(Holding);
            && (total <= s.poolSize ==> size == s.poolSize)
            && (total > s.poolSize ==> 3 * total - 1 <= 2 * size <= 3 * total)
  {
    PendingCount(s, s.order);
    SumNonNegative(s.order, s.jobs, Pending);
    SumNonNegative(s.order, s.jobs, Deferred);
    SumNonNegative(s.order, s.jobs, Holding);
  }

  lemma SlotsOf(list: seq<JobId>)
    requires Distinct(list)
    ensures SlotsDistinct(Slots(list)) && forall id: JobId :: Some(id) in Slots(list) <==> id in list
  {
    forall id: JobId | id in list ensures Some(id) in Slots(list) {
      var i :| 0 <= i < |list| && list[i] == id;
      assert Slots(list)[i] == Some(id);
    }
  }

  lemma RebuildPool(s: Server)
    requires TableInv(s) && CounterFor(s, Pending) && CounterFor(s, Deferred) && CounterFor(s, Holding)
    ensures PoolInv(GeneratePool(s))
  {
    RebuildFits(s);
    var list := PendingJobs(s, s.order);
    PendingCount(s, s.order);
    SortedDistinct(s, list);
    SlotsOf(Sorted(s, list));
    hide CounterFor, Sorted, PendingJobs, Slots, Sum, Distinct, SlotsDistinct, InsertSorted;
    if s.stats.Get(Pending) == 0 {
      assert list == [];
    }
    RebuiltHolds(s, GeneratePool(s), list);
  }

  lemma RebuiltHolds(s: Server, t: Server, list: seq<JobId>)
    requires TableInv(s) && t.jobs == s.jobs && SlotsDistinct(t.pool) && |t.pool| <= t.poolSize
    requires forall x: JobId :: x in list <==> x in s.order && Known(s, x) && !s.jobs[x].deleted && s.jobs[x].state == Pending
    requires forall id: JobId :: Some(id) in t.pool <==> id in list
    ensures PoolInv(t)
  {
    forall i | 0 <= i < |t.pool| && t.pool[i].Some? ensures t.pool[i].value in t.jobs { assert Some(t.pool[i].value) in t.pool; }
  }

  lemma SchedulePool(s: Server)
    requires TableInv(s) && PoolInv(s) && CounterFor(s, Pending) && CounterFor(s, Deferred) && CounterFor(s, Holding)
    ensures PoolInv(CheckJobs(s))
  {
    if s.recalc { RebuildPool(s); }
    hide PassFrom, GeneratePool, PoolInv, TableInv, CounterFor;
    var s1 := if s.recalc then GeneratePool(s) else s;
    PassSteady(s1, 0, Quota(s1));
    SteadyPool(s1, PassFrom(s1, 0, Quota(s1)));
  }

  // -------------------------------------------------------------------------
  // All runs
  // -------------------------------------------------------------------------

  lemma StepSteady(s: Server, e: Event)
    requires !e.Cleanup? && !e.ScheduleTimer?
    ensures Steady(s, Apply(s, e))
  {
    hide Steady, AddJob, ModJob, DeleteJob, SignalUnknown, ReleaseLoop, JobStarted, JobCompleted, ReconLoop, UnknownLoop;
    match e
    case Add(id, r) => AddSteady(s, id, r);
    case Modify(_, _) => UserSteady(s, e);
    case Delete(_) => UserSteady(s, e);
    case Signal(_) => UserSteady(s, e);
    case ChangeQueue(_, _, _, _) => SameSteady(s, Apply(s, e));
    case ChangeResource(_, _) => SameSteady(s, Apply(s, e));
    case Marks(id, _, _) => if id in s.jobs { EditsSteady(s, Apply(s, e), id); } else { SameSteady(s, s); }
    case ReleaseTimer(now) => ReleaseSteady(s, s.deferred, now);
    case StartedMsg(_) => ReportSteady(s, e);
    case CompletedMsg(_, _) => ReportSteady(s, e);
    case ReconMsg(_, items) =>
      ReconSteady(s, items);
      SameSteady(ReconLoop(s, items), Apply(s, e));
      SteadyChain(s, ReconLoop(s, items), Apply(s, e));
    case LoginMsg(_, _) => SameSteady(s, Apply(s, e));
    case AgentGone(a) =>
      UnknownSteady(s, s.order, a);
      SameSteady(UnknownLoop(s, s.order, a), Apply(s, e));
      SteadyChain(s, UnknownLoop(s, s.order, a), Apply(s, e));
  }

  lemma StepPool(s: Server, e: Event)
    requires BaseInv(s) && Counted(s) && PoolInv(s)
    ensures PoolInv(Apply(s, e))
  {
    assert Tally(s, Pending, 0) && Tally(s, Deferred, 0) && Tally(s, Holding, 0);
    hide PoolInv, Steady, CleanupJob, CheckJobs, CounterFor, TableInv;
    match e
    case Cleanup(id) => CleanupPool(s, id);
    case ScheduleTimer => SchedulePool(s);
    case _ => StepSteady(s, e); SteadyPool(s, Apply(s, e));
  }

  lemma {:induction false} RunPool(s: Server, events: seq<Event>)
    requires BaseInv(s) && Counted(s) && PoolInv(s) && IsRun(s, events)
    ensures PoolInv(Run(s, events))
    decreases events
  {
    hide BaseInv, Counted, PoolInv, Apply;
    if events != [] {
      StepPool(s, events[0]);
      StepCounted(s, events[0]);
      StepBase(s, events[0]);
      RunPool(Apply(s, events[0]), events[1..]);
    }
  }

  // In every run the pool fits its allocation, its entries are distinct jobs of the table, and unless
  // it is due to be rebuilt it holds every pending job that is not deleted.
  lemma PoolInAllRuns(s: Server, events: seq<Event>)
    requires Initial(s) && IsRun(s, events)
    ensures PoolInv(Run(s, events))
  {
    InitialBase(s);
    InitialCounted(s);
    RunPool(s, events);
  }

  // -------------------------------------------------------------------------
  // The order
  // -------------------------------------------------------------------------

  predicate InPoolOrder(s: Server, list: seq<JobId>)
    requires forall x :: x in list ==> Known(s, x)
  {
    forall i, k :: 0 <= i < k < |list| ==> Before(s, list[i], list[k])
  }

  lemma BeforeIsTotalOrder(s: Server, a: JobId, b: JobId, c: JobId)
    requires Known(s, a) && Known(s, b) && Known(s, c)
    ensures Before(s, a, b) || Before(s, b, a)
    ensures Before(s, a, b) && Before(s, b, a) ==> a == b
    ensures Before(s, a, b) && Before(s, b, c) ==> Before(s, a, c)
  {
  }

  lemma {:induction false} InsertOrdered(s: Server, id: JobId, list: seq<JobId>)
    requires Known(s, id) && (forall x :: x in list ==> Known(s, x)) && InPoolOrder(s, list)
    ensures InPoolOrder(s, InsertSorted(s, id, list))
  {
    if list == [] {
    } else if Before(s, id, list[0]) {
      forall k | 0 <= k < |list| ensures Before(s, id, list[k]) {
        if k > 0 { BeforeIsTotalOrder(s, id, list[0], list[k]); }
      }
    } else {
      assert list[0] in list;
      BeforeIsTotalOrder(s, id, list[0], id);
      InsertOrdered(s, id, list[1..]);
      assert forall x :: x in list[1..] ==> Before(s, list[0], x);
      hide Before;
    }
  }

  lemma {:induction false} InsertPermutes(s: Server, id: JobId, list: seq<JobId>)
    requires Known(s, id) && (forall x :: x in list ==> Known(s, x))
    ensures multiset(InsertSorted(s, id, list)) == multiset(list) + multiset{id}
  {
    if !(list == [] || Before(s, id, list[0])) {
      hide Before;
      InsertPermutes(s, id, list[1..]);
      assert list == [list[0]] + list[1..];
    }
  }

  // Insertion sort gives an ordered permutation.
  lemma {:induction false} SortedOrdered(s: Server, list: seq<JobId>)
    requires forall x :: x in list ==> Known(s, x)
    ensures InPoolOrder(s, Sorted(s, list)) && multiset(Sorted(s, list)) == multiset(list)
  {
    if list != [] {
      SortedOrdered(s, list[1..]);
      assert list[0] in list;
      InsertOrdered(s, list[0], Sorted(s, list[1..]));
      InsertPermutes(s, list[0], Sorted(s, list[1..]));
      assert list == [list[0]] + list[1..];
    }
  }

  // Whatever algorithm sorts the pool, the result is the same: an ordered permutation is unique.
  lemma TailMultiset(a: seq<JobId>)
    requires a != []
    ensures multiset(a[1..]) == multiset(a) - multiset{a[0]}
  {
    assert a == [a[0]] + a[1..];
  }

  lemma TailOrdered(s: Server, a: seq<JobId>)
    requires a != [] && (forall x :: x in a ==> Known(s, x)) && InPoolOrder(s, a)
    ensures (forall x :: x in a[1..] ==> Known(s, x)) && InPoolOrder(s, a[1..])
  {
  }

  lemma {:induction false} OrderedPermutationIsUnique(s: Server, a: seq<JobId>, b: seq<JobId>)
    requires (forall x :: x in a ==> Known(s, x)) && (forall x :: x in b ==> Known(s, x))
    requires InPoolOrder(s, a) && InPoolOrder(s, b) && multiset(a) == multiset(b)
    ensures a == b
  {
    if a == [] {
      assert |multiset(b)| == |b| == 0;
    } else {
      assert |multiset(a)| == |a| == |b|;
      FirstIsLeast(s, a, b);
      TailMultiset(a);
      TailMultiset(b);
      TailOrdered(s, a);
      TailOrdered(s, b);
      hide InPoolOrder, Known;
      OrderedPermutationIsUnique(s, a[1..], b[1..]);
      assert a == [a[0]] + a[1..] && b == [b[0]] + b[1..];
    }
  }

  lemma FirstIsLeast(s: Server, a: seq<JobId>, b: seq<JobId>)
    requires (forall x :: x in a ==> Known(s, x)) && (forall x :: x in b ==> Known(s, x))
    requires InPoolOrder(s, a) && InPoolOrder(s, b) && multiset(a) == multiset(b) && a != [] && b != []
    ensures a[0] == b[0]
  {
    assert a[0] in a && b[0] in b;
    assert a[0] in multiset(b) && b[0] in multiset(a);
    assert a[0] in b && b[0] in a;
    BeforeIsTotalOrder(s, a[0], b[0], a[0]);
  }

  // -------------------------------------------------------------------------
  // The comparison function, on 32-bit integers
  // -------------------------------------------------------------------------

  const TWO_32 := 0x1_0000_0000

  // The signed 32-bit value of a difference.
  function Wrap(x: int): int {
    var m := x % TWO_32;
    if m < 0x8000_0000 then m else m - TWO_32
  }

  function Compare(s: Server, a: JobId, b: JobId): int
    requires Known(s, a) && Known(s, b)
  {
    var ja, jb := s.jobs[a], s.jobs[b];
    var byQueue := Wrap(s.queues[jb.queue].priority - s.queues[ja.queue].priority);
    if byQueue != 0 then byQueue
    else
      var byJob := Wrap(jb.priority - ja.priority);
      if byJob != 0 then byJob else Wrap(a - b)
  }

  predicate FitsInt32(x: int) {
    -0x8000_0000 <= x < 0x8000_0000
  }

  lemma WrapFits(x: int)
    requires -TWO_32 < x < TWO_32
    ensures FitsInt32(x) <==> Wrap(x) == x
    ensures !FitsInt32(x) ==> (Wrap(x) <= 0 <==> x > 0) && Wrap(x) != 0
  {
    if x >= 0 { assert x % TWO_32 == x; } else { assert x % TWO_32 == x + TWO_32; }
  }

  // The field that decides between two jobs.
  function Deciding(s: Server, a: JobId, b: JobId): int
    requires Known(s, a) && Known(s, b)
  {
    var ja, jb := s.jobs[a], s.jobs[b];
    var byQueue, byJob := s.queues[jb.queue].priority - s.queues[ja.queue].priority, jb.priority - ja.priority;
    if byQueue != 0 then byQueue else if byJob != 0 then byJob else a - b
  }

  predicate Fields32(s: Server, a: JobId)
    requires Known(s, a)
  {
    FitsInt32(s.queues[s.jobs[a].queue].priority) && FitsInt32(s.jobs[a].priority) && a < 0x8000_0000
  }

  // On 32-bit priorities the function agrees with the intended order exactly when the difference of
  // the deciding field fits in 32 bits.
  lemma CompareIsOrderIff(s: Server, a: JobId, b: JobId)
    requires Known(s, a) && Known(s, b) && Fields32(s, a) && Fields32(s, b)
    ensures (Compare(s, a, b) <= 0 <==> Before(s, a, b)) <==> FitsInt32(Deciding(s, a, b))
  {
    var ja, jb := s.jobs[a], s.jobs[b];
    WrapFits(s.queues[jb.queue].priority - s.queues[ja.queue].priority);
    WrapFits(jb.priority - ja.priority);
    WrapFits(a - b);
    hide Wrap;
  }
}
