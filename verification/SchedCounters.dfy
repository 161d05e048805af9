/**
 Counter conservation: every counter, of the server and of each queue, equals the number of jobs of
 the table that are in that state, plus the number of jobs removed from the table in that state.
 */
module SchedCounters {
  import opened Options
  import opened JobStates
  import opened Sequences
  import opened SchedState
  import opened SchedSteps
  import opened SchedDefer
  import opened SchedRun

  ghost predicate CounterFor(s: Server, st: JobState) {
    st != NoState ==> s.stats.Get(st) == Sum(s.order, s.jobs, W(st))
  }

  ghost predicate QueueCounterFor(s: Server, q: QueueId, st: JobState) {
    st != NoState && q in s.qstats ==> s.qstats[q].Get(st) == Sum(s.order, s.jobs, WQ(q, st))
  }

  // Both counters of one state, the server's and one queue's.
  ghost predicate Tally(s: Server, st: JobState, q: QueueId) {
    CounterFor(s, st) && QueueCounterFor(s, q, st)
  }

  // What a counter has too many.
  ghost function Excess(s: Server, st: JobState): int {
    s.stats.Get(st) - Sum(s.order, s.jobs, W(st))
  }

  ghost function QueueExcess(s: Server, q: QueueId, st: JobState): int
    requires q in s.qstats
  {
    s.qstats[q].Get(st) - Sum(s.order, s.jobs, WQ(q, st))
  }

  // Both counters moved as the jobs did.
  ghost predicate Even(s: Server, t: Server, st: JobState, q: QueueId) {
    st != NoState ==>
      && Excess(t, st) == Excess(s, st)
      && (q in t.qstats <==> q in s.qstats)
      && (q in s.qstats ==> QueueExcess(t, q, st) == QueueExcess(s, q, st))
  }

  lemma EvenChain(s: Server, t: Server, u: Server, st: JobState, q: QueueId)
    requires Even(s, t, st, q) && Even(t, u, st, q)
    ensures Even(s, u, st, q)
  {
    hide Excess, QueueExcess;
  }

  function One(b: bool): int {
    if b then 1 else 0
  }

  lemma LeftGet(x: Stats, from: JobState, st: JobState)
    requires st != NoState
    ensures Left(x, from).Get(st) == x.Get(st) - One(from == st)
  {
  }

  lemma EnteredGet(x: Stats, to: JobState, started: bool, st: JobState)
    requires st != NoState
    ensures Entered(x, to, started).Get(st) == x.Get(st) + One(to == st)
  {
  }

  lemma MovedCount(x: Stats, from: JobState, to: JobState, started: bool, st: JobState)
    requires st != NoState
    ensures Entered(Left(x, from), to, started).Get(st) == x.Get(st) - One(from == st) + One(to == st)
  {
    LeftGet(x, from, st);
    EnteredGet(Left(x, from), to, started, st);
  }

  lemma RecountGet(m: map<QueueId, Stats>, q: QueueId, st: JobState, q': QueueId, st': JobState, started: bool, k: QueueId, x: JobState)
    requires q in m && q' in m && k in m && x != NoState
    ensures var r := Recount(m, q, st, q', st', started);
            k in r && r[k].Get(x) == m[k].Get(x) - One(q == k && st == x) + One(q' == k && st' == x)
  {
    LeftGet(m[q], st, x);
    var left := m[q := Left(m[q], st)];
    EnteredGet(left[q'], st', started, x);
    hide Left, Entered;
  }

  lemma ChangeCounts(s: Server, id: JobId, to: JobState, q': Option<QueueId>, dirty: bool)
    requires Known(s, id) && (q'.Some? ==> q'.value in s.qstats)
    ensures var j, t := s.jobs[id], ChangeJobState(s, id, to, q', dirty);
            if j.state != to || q'.Some? then
              && t.stats == Entered(Left(s.stats, j.state), to, j.started)
              && t.qstats == Recount(s.qstats, j.queue, j.state, Changed(j, to, q', dirty).queue, to, j.started)
            else t.stats == s.stats && t.qstats == s.qstats
  {
    hide Recount, Left, Entered;
  }

  lemma StateSum(s: Server, id: JobId, j: Job, st: JobState)
    requires TableInv(s) && id in s.jobs
    ensures Sum(s.order, s.jobs[id := j], W(st)) == Sum(s.order, s.jobs, W(st)) - One(s.jobs[id].state == st) + One(j.state == st)
  {
    SumUpdate(s.order, s.jobs, id, j, W(st));
  }

  lemma QueueStateSum(s: Server, id: JobId, j: Job, q: QueueId, st: JobState)
    requires TableInv(s) && id in s.jobs
    ensures Sum(s.order, s.jobs[id := j], WQ(q, st))
            == Sum(s.order, s.jobs, WQ(q, st)) - One(s.jobs[id].queue == q && s.jobs[id].state == st) + One(j.queue == q && j.state == st)
  {
    SumUpdate(s.order, s.jobs, id, j, WQ(q, st));
  }

  // What a change of state does to one counter of the server and one of a queue.
  lemma CounterAfter(s: Server, id: JobId, to: JobState, q': Option<QueueId>, dirty: bool, st: JobState)
    requires Known(s, id) && (q'.Some? ==> q'.value in s.qstats) && st != NoState
    ensures ChangeJobState(s, id, to, q', dirty).stats.Get(st) == s.stats.Get(st) - One(s.jobs[id].state == st) + One(to == st)
  {
    MovedCount(s.stats, s.jobs[id].state, to, s.jobs[id].started, st);
    ChangeCounts(s, id, to, q', dirty);
    hide ChangeJobState, Recount, Left, Entered;
  }

  lemma QueueCounterAfter(s: Server, id: JobId, to: JobState, q': Option<QueueId>, dirty: bool, st: JobState, q: QueueId)
    requires Known(s, id) && (q'.Some? ==> q'.value in s.qstats) && st != NoState && q in s.qstats
    ensures var j, j' := s.jobs[id], Changed(s.jobs[id], to, q', dirty);
            var t := ChangeJobState(s, id, to, q', dirty);
            && q in t.qstats
            && t.qstats[q].Get(st) == s.qstats[q].Get(st) - One(j.queue == q && j.state == st) + One(j'.queue == q && to == st)
  {
    var j, j' := s.jobs[id], Changed(s.jobs[id], to, q', dirty);
    RecountGet(s.qstats, j.queue, j.state, j'.queue, to, j.started, q, st);
    ChangeCounts(s, id, to, q', dirty);
    hide ChangeJobState, Recount, Left, Entered;
  }

  lemma ChangeKeepsCounter(s: Server, id: JobId, to: JobState, q': Option<QueueId>, dirty: bool, st: JobState)
    requires TableInv(s) && Known(s, id) && (q'.Some? ==> q'.value in s.qstats) && st != NoState
    ensures Excess(ChangeJobState(s, id, to, q', dirty), st) == Excess(s, st)
  {
    StateSum(s, id, Changed(s.jobs[id], to, q', dirty), st);
    CounterAfter(s, id, to, q', dirty, st);
    ChangeShape(s, id, to, q', dirty);
    hide ChangeJobState, TableInv, Sum, W, Known;
  }

  lemma ChangeKeepsQueueCounter(s: Server, id: JobId, to: JobState, q': Option<QueueId>, dirty: bool, st: JobState, q: QueueId)
    requires TableInv(s) && Known(s, id) && (q'.Some? ==> q'.value in s.qstats) && st != NoState && q in s.qstats
    ensures var t := ChangeJobState(s, id, to, q', dirty); q in t.qstats && QueueExcess(t, q, st) == QueueExcess(s, q, st)
  {
    ChangeShape(s, id, to, q', dirty);
    QueueStateSum(s, id, Changed(s.jobs[id], to, q', dirty), q, st);
    QueueCounterAfter(s, id, to, q', dirty, st, q);
    hide ChangeJobState, TableInv, Sum, WQ, Known;
  }

  lemma ChangeEven(s: Server, id: JobId, to: JobState, q': Option<QueueId>, dirty: bool, st: JobState, q: QueueId)
    requires TableInv(s) && Known(s, id) && (q'.Some? ==> q'.value in s.qstats)
    ensures Even(s, ChangeJobState(s, id, to, q', dirty), st, q)
  {
    if st != NoState {
      ChangeKeepsCounter(s, id, to, q', dirty, st);
      ChangeShape(s, id, to, q', dirty);
      hide ChangeJobState, TableInv, Excess, QueueExcess;
      if q in s.qstats { ChangeKeepsQueueCounter(s, id, to, q', dirty, st, q); }
      else { assert q in ChangeJobState(s, id, to, q', dirty).qstats.Keys <==> q in s.qstats.Keys; }
    }
  }

  // -------------------------------------------------------------------------
  // Every step but a removal moves every counter as it moves the jobs
  // -------------------------------------------------------------------------

  lemma EditsEven(s: Server, s1: Server, id: JobId, st: JobState, q: QueueId)
    requires TableInv(s) && Edits(s, s1, id)
    ensures Even(s, s1, st, q)
  {
    SumUpdate(s.order, s.jobs, id, s1.jobs[id], W(st));
    SumUpdate(s.order, s.jobs, id, s1.jobs[id], WQ(q, st));
  }

  lemma EditChangeEven(s: Server, s1: Server, id: JobId, to: JobState, q': Option<QueueId>, dirty: bool, st: JobState, q: QueueId)
    requires TableInv(s) && Edits(s, s1, id) && (q'.Some? ==> q'.value in s.qstats)
    ensures Known(s1, id) && Even(s, ChangeJobState(s1, id, to, q', dirty), st, q)
  {
    EditsTable(s, s1, id);
    EditsEven(s, s1, id, st, q);
    hide ChangeJobState, Even;
    ChangeEven(s1, id, to, q', dirty, st, q);
    EvenChain(s, s1, ChangeJobState(s1, id, to, q', dirty), st, q);
  }

  lemma AddEnteredEven(s: Server, id: JobId, r: Request, st: JobState, q: QueueId)
    requires TableInv(s) && !AddRefused(s, id, r)
    ensures Even(s, AddEntered(s, id, r), st, q)
  {
    var s1 := AddEntered(s, id, r);
    assert id !in s.order;
    SumOutside(s.order, s.jobs, id, s1.jobs[id], W(st));
    SumOutside(s.order, s.jobs, id, s1.jobs[id], WQ(q, st));
    SumAppend(s.order, s1.jobs, id, W(st));
    SumAppend(s.order, s1.jobs, id, WQ(q, st));
  }

  lemma AddEven(s: Server, id: JobId, r: Request, st: JobState, q: QueueId)
    requires BaseInv(s)
    ensures Even(s, AddJob(s, id, r), st, q)
  {
    hide ChangeJobState;
    if !AddRefused(s, id, r) {
      var s1 := AddEntered(s, id, r);
      AddEnteredOk(s, id, r);
      AddEnteredEven(s, id, r, st, q);
      hide Even, AddEntered;
      ChangeEven(s1, id, AddTarget(r), None, true, st, q);
      EvenChain(s, s1, AddJob(s, id, r), st, q);
    }
  }

  lemma UserEven(s: Server, e: Event, st: JobState, q: QueueId)
    requires BaseInv(s) && (e.Modify? || e.Delete? || e.Signal?)
    ensures Even(s, Apply(s, e), st, q)
  {
    SameEven(s, s, st, q);
    hide ChangeJobState, Even, ListOk;
    match e
    case Modify(id, m) =>
      if !ModRefused(s, id, m) {
        EditChangeEven(s, ModEdited(s, id, m), id, ModTarget(s.jobs[id], m), m.queue, ModDirty(s.jobs[id], m), st, q);
      }
    case Delete(id) =>
      if Known(s, id) && !s.jobs[id].deleted { EditChangeEven(s, DeleteMarked(s, id), id, NoState, None, false, st, q); }
    case Signal(id) =>
      if Known(s, id) && !s.jobs[id].deleted && s.jobs[id].state == Unknown {
        EditChangeEven(s, NeedsReturned(s, id), id, Exited, None, true, st, q);
      }
  }

  lemma {:induction false} ReleaseEven(s: Server, now: int, st: JobState, q: QueueId)
    requires BaseInv(s)
    ensures Even(s, ReleaseLoop(s, s.deferred, now), st, q)
    decreases |s.deferred|
  {
    if !(s.deferred == [] || !Known(s, s.deferred[0]) || now < s.jobs[s.deferred[0]].deferTime) {
      var id := s.deferred[0];
      EditChangeEven(s, Undeferred(s, id), id, Pending, None, false, st, q);
      ReleasedFirst(s, id);
      hide ChangeJobState, Even, BaseInv;
      ReleaseEven(Released(s, id), now, st, q);
      EvenChain(s, Released(s, id), ReleaseLoop(s, s.deferred, now), st, q);
    }
  }

  lemma ReportEven(s: Server, e: Event, st: JobState, q: QueueId)
    requires TableInv(s) && (e.StartedMsg? || e.CompletedMsg?)
    ensures Even(s, Apply(s, e), st, q)
  {
    SameEven(s, s, st, q);
    hide ChangeJobState, Even, TableInv, Deallocate;
    if Known(s, e.id) {
      var s1 := if e.StartedMsg? then s else NeedsReturned(s, e.id);
      var to := if e.StartedMsg? then Running else FinalState(e.failed);
      EditsTable(s, s1, e.id);
      EditChangeEven(s, s1, e.id, to, None, true, st, q);
      ChangeKeepsTable(s1, e.id, to, None, true);
      ChangeShape(s1, e.id, to, None, true);
      var t := ChangeJobState(s1, e.id, to, None, true);
      EditsEven(t, ClearStarted(t, e.id), e.id, st, q);
      EvenChain(s, t, ClearStarted(t, e.id), st, q);
    }
  }

  lemma ReconOneEven(s: Server, item: ReconItem, st: JobState, q: QueueId)
    requires TableInv(s)
    ensures TableInv(ReconOne(s, item)) && Even(s, ReconOne(s, item), st, q)
  {
    SameEven(s, s, st, q);
    hide ChangeJobState, Even, TableInv;
    if Known(s, item.id) && !item.NotKnown? {
      var to := if item.Ended? then FinalState(item.failed) else Running;
      ChangeEven(s, item.id, to, None, item.Ended?, st, q);
      ChangeKeepsTable(s, item.id, to, None, item.Ended?);
    }
  }

  lemma {:induction false} ReconEven(s: Server, items: seq<ReconItem>, st: JobState, q: QueueId)
    requires TableInv(s)
    ensures TableInv(ReconLoop(s, items)) && Even(s, ReconLoop(s, items), st, q)
    decreases items
  {
    hide ReconOne, TableInv;
    if items != [] {
      var t := ReconOne(s, items[0]);
      ReconOneEven(s, items[0], st, q);
      hide Even;
      ReconEven(t, items[1..], st, q);
      EvenChain(s, t, ReconLoop(s, items), st, q);
    }
  }

  lemma {:induction false} UnknownEven(s: Server, list: seq<JobId>, a: AgentId, st: JobState, q: QueueId)
    requires TableInv(s)
    ensures TableInv(UnknownLoop(s, list, a)) && Even(s, UnknownLoop(s, list, a), st, q)
    decreases list
  {
    SameEven(s, s, st, q);
    hide ChangeJobState, Even, TableInv;
    if list != [] {
      var id := list[0];
      if RunsOn(s, id, a) {
        EditChangeEven(s, FlagsCleared(s, id), id, Unknown, None, true, st, q);
        EditsTable(s, FlagsCleared(s, id), id);
        ChangeKeepsTable(FlagsCleared(s, id), id, Unknown, None, true);
        UnknownEven(UnknownOne(s, id), list[1..], a, st, q);
        EvenChain(s, UnknownOne(s, id), UnknownLoop(s, list, a), st, q);
      } else {
        UnknownEven(s, list[1..], a, st, q);
      }
    }
  }

  lemma StartEven(s: Server, id: JobId, st: JobState, q: QueueId)
    requires TableInv(s) && Known(s, id)
    ensures Even(s, Start(s, id), st, q)
  {
    StateSum(s, id, s.jobs[id].(started := true), st);
    QueueStateSum(s, id, s.jobs[id].(started := true), q, st);
    hide TableInv, Allocate, Sum, W, WQ;
  }

  lemma {:induction false} PassEven(s: Server, i: nat, quota: int, st: JobState, q: QueueId)
    requires BaseInv(s)
    ensures Even(s, PassFrom(s, i, quota), st, q)
    decreases |s.pool| - i
  {
    SameEven(s, s, st, q);
    if i < |s.pool| {
      if Startable(s, s.pool[i]) {
        var t := Start(s, s.pool[i].value);
        StartFacts(s, s.pool[i]);
        StartBase(s, s.pool[i].value);
        StartEven(s, s.pool[i].value, st, q);
        hide Start, Startable, BaseInv, Known, Even;
        if quota > 1 {
          PassEven(t, i + 1, quota - 1, st, q);
          EvenChain(s, t, PassFrom(s, i, quota), st, q);
        }
      } else {
        hide Start, Startable, BaseInv, Known, Even;
        PassEven(s, i + 1, quota, st, q);
      }
    }
  }

  // Steps that leave jobs and counters alone.
  lemma SameEven(s: Server, s1: Server, st: JobState, q: QueueId)
    requires s1.jobs == s.jobs && s1.order == s.order && s1.stats == s.stats && s1.qstats == s.qstats
    ensures Even(s, s1, st, q)
  {
  }

  lemma ScheduleEven(s: Server, st: JobState, q: QueueId)
    requires BaseInv(s)
    ensures Even(s, CheckJobs(s), st, q)
  {
    SameEven(s, s, st, q);
    hide PassFrom, GeneratePool, BaseInv, Even;
    var s1 := if s.recalc then GeneratePool(s) else s;
    if s.recalc { GenerateShape(s); }
    SameEven(s, s1, st, q);
    QueuesBase(s, s1);
    PassEven(s1, 0, Quota(s1), st, q);
    EvenChain(s, s1, PassFrom(s1, 0, Quota(s1)), st, q);
  }

  lemma LoopEven(s: Server, e: Event, st: JobState, q: QueueId)
    requires BaseInv(s) && (e.ReleaseTimer? || e.ScheduleTimer? || e.ReconMsg? || e.AgentGone?)
    ensures Even(s, Apply(s, e), st, q)
  {
    assert TableInv(s);
    hide BaseInv, Even, TableInv, ReleaseLoop, CheckJobs, ReconLoop, UnknownLoop;
    if e.ReleaseTimer? { ReleaseEven(s, e.now, st, q); }
    else if e.ScheduleTimer? { ScheduleEven(s, st, q); }
    else {
      hide Apply;
      AgentEven(s, e, st, q);
    }
  }

  lemma AgentEven(s: Server, e: Event, st: JobState, q: QueueId)
    requires TableInv(s) && (e.ReconMsg? || e.AgentGone?)
    ensures Even(s, Apply(s, e), st, q)
  {
    hide Even, TableInv, ReconLoop, UnknownLoop;
    var t := if e.ReconMsg? then ReconLoop(s, e.items) else UnknownLoop(s, s.order, e.a);
    if e.ReconMsg? { ReconEven(s, e.items, st, q); } else { UnknownEven(s, s.order, e.a, st, q); }
    SameEven(t, Apply(s, e), st, q);
    EvenChain(s, t, Apply(s, e), st, q);
  }

  lemma StepEven(s: Server, e: Event, st: JobState, q: QueueId)
    requires BaseInv(s) && !e.Cleanup?
    ensures Even(s, Apply(s, e), st, q)
  {
    hide Even, AddJob, SetMarks, ListOk;
    if e.Add? { AddEven(s, e.id, e.request, st, q); }
    else if e.Marks? { MarksEven(s, e, st, q); }
    else if e.ChangeQueue? || e.ChangeResource? || e.LoginMsg? { SameEven(s, Apply(s, e), st, q); }
    else {
      hide Apply;
      if e.Modify? || e.Delete? || e.Signal? { UserEven(s, e, st, q); }
      else if e.StartedMsg? || e.CompletedMsg? { ReportEven(s, e, st, q); }
      else { LoopEven(s, e, st, q); }
    }
  }

  lemma MarksEven(s: Server, e: Event, st: JobState, q: QueueId)
    requires TableInv(s) && e.Marks?
    ensures Even(s, Apply(s, e), st, q)
  {
    if e.id in s.jobs { EditsEven(s, Apply(s, e), e.id, st, q); }
  }

  // -------------------------------------------------------------------------
  // Removals
  // -------------------------------------------------------------------------

  // The step removes a job from the table that is in the given state, and in one of the queues.
  predicate Removes(s: Server, e: Event, st: JobState) {
    e.Cleanup? && e.id in s.jobs && s.jobs[e.id].deleted && !s.jobs[e.id].dirty && !s.jobs[e.id].flushing && s.jobs[e.id].state == st
  }

  predicate RemovesIn(s: Server, e: Event, qs: seq<QueueId>, st: JobState) {
    Removes(s, e, st) && s.jobs[e.id].queue in qs
  }

  // A step leaves one too many in the counter for each job it removes in that state.
  lemma StepExcess(s: Server, e: Event, st: JobState)
    requires BaseInv(s) && st != NoState
    ensures Excess(Apply(s, e), st) == Excess(s, st) + One(Removes(s, e, st))
  {
    if e.Cleanup? {
      if e.id in s.jobs { SumWithout(s.order, s.jobs, e.id, W(st)); }
    } else {
      StepEven(s, e, st, 0);
    }
  }

  lemma StepQueueExcess(s: Server, e: Event, st: JobState, q: QueueId)
    requires BaseInv(s) && st != NoState
    ensures q in Apply(s, e).qstats <==> q in s.qstats
    ensures q in s.qstats ==> QueueExcess(Apply(s, e), q, st) == QueueExcess(s, q, st) + One(RemovesIn(s, e, [q], st))
  {
    if e.Cleanup? {
      CleanupQueueExcess(s, e.id, st, q);
    } else {
      hide Apply, BaseInv, QueueExcess;
      StepEven(s, e, st, q);
    }
  }

  lemma CleanupQueueExcess(s: Server, id: JobId, st: JobState, q: QueueId)
    requires TableInv(s) && st != NoState
    ensures CleanupJob(s, id).qstats == s.qstats
    ensures q in s.qstats ==> QueueExcess(CleanupJob(s, id), q, st) == QueueExcess(s, q, st) + One(RemovesIn(s, Cleanup(id), [q], st))
  {
    hide Sum, Without, ClearSlots, TableInv;
    if id in s.jobs && s.jobs[id].deleted && !s.jobs[id].dirty && !s.jobs[id].flushing {
      assert One(RemovesIn(s, Cleanup(id), [q], st)) == WQ(q, st)(s.jobs[id]);
      hide RemovesIn, WQ, One;
      SumLeft(s, id, WQ(q, st));
    } else {
      assert CleanupJob(s, id) == s && !RemovesIn(s, Cleanup(id), [q], st);
      hide RemovesIn, CleanupJob;
    }
  }

  lemma SumLeft(s: Server, id: JobId, w: Job -> int)
    requires TableInv(s) && id in s.jobs
    ensures Sum(Without(s.order, id), s.jobs - {id}, w) == Sum(s.order, s.jobs, w) - w(s.jobs[id])
  {
    SumWithout(s.order, s.jobs, id, w);
  }

  // A deleted job is in no state or over, so no other counter is ever upset.
  lemma RemovesOnlyOver(s: Server, e: Event, st: JobState)
    requires BaseInv(s) && st != NoState && !Over(st)
    ensures !Removes(s, e, st)
  {
  }

  lemma StepTally(s: Server, e: Event, st: JobState, q: QueueId)
    requires BaseInv(s) && Tally(s, st, q) && !Removes(s, e, st)
    ensures Tally(Apply(s, e), st, q)
  {
    hide BaseInv, Apply, Removes, RemovesIn;
    if st != NoState {
      StepExcess(s, e, st);
      StepQueueExcess(s, e, st, q);
      assert !RemovesIn(s, e, [q], st) by { NotRemovesIn(s, e, [q], st); }
      TallyIsExcess(s, st, q);
      TallyIsExcess(Apply(s, e), st, q);
      hide Excess, QueueExcess, Tally;
    }
  }

  lemma NotRemovesIn(s: Server, e: Event, qs: seq<QueueId>, st: JobState)
    requires !Removes(s, e, st)
    ensures !RemovesIn(s, e, qs, st)
  {
  }

  lemma TallyIsExcess(s: Server, st: JobState, q: QueueId)
    requires st != NoState
    ensures Tally(s, st, q) <==> Excess(s, st) == 0 && (q in s.qstats ==> QueueExcess(s, q, st) == 0)
  {
  }

  // The counters of all states but the final two are exact.
  ghost predicate Counted(s: Server) {
    forall st: JobState, q: QueueId :: !Over(st) ==> Tally(s, st, q)
  }

  lemma StepCounted(s: Server, e: Event)
    requires BaseInv(s) && Counted(s)
    ensures Counted(Apply(s, e))
  {
    hide BaseInv, Apply, Tally, Removes;
    forall st: JobState, q: QueueId | !Over(st) ensures Tally(Apply(s, e), st, q) {
      if st == NoState {
        TallyOfNone(Apply(s, e), q);
      } else {
        RemovesOnlyOver(s, e, st);
        StepTally(s, e, st, q);
      }
    }
  }

  lemma TallyOfNone(s: Server, q: QueueId)
    ensures Tally(s, NoState, q)
  {
  }

  lemma InitialCounted(s: Server)
    requires Initial(s)
    ensures Counted(s)
  {
  }

  // -------------------------------------------------------------------------
  // Counter conservation
  // -------------------------------------------------------------------------

  // How many jobs a run removes in a given state, from any queue or from some.
  function Removals(s: Server, events: seq<Event>, st: JobState): nat
    decreases events
  {
    if events == [] then 0
    else (if Removes(s, events[0], st) then 1 else 0) + Removals(Apply(s, events[0]), events[1..], st)
  }

  function RemovalsIn(s: Server, events: seq<Event>, qs: seq<QueueId>, st: JobState): nat
    decreases events
  {
    if events == [] then 0
    else (if RemovesIn(s, events[0], qs, st) then 1 else 0) + RemovalsIn(Apply(s, events[0]), events[1..], qs, st)
  }

  lemma {:induction false} RunExcess(s: Server, events: seq<Event>, st: JobState)
    requires BaseInv(s) && IsRun(s, events) && st != NoState
    ensures Excess(Run(s, events), st) == Excess(s, st) + Removals(s, events, st)
    decreases events
  {
    hide BaseInv, Apply, Excess, Removes;
    if events != [] {
      StepExcess(s, events[0], st);
      StepBase(s, events[0]);
      RunExcess(Apply(s, events[0]), events[1..], st);
    }
  }

  lemma {:induction false} RunQueueExcess(s: Server, events: seq<Event>, st: JobState, q: QueueId)
    requires BaseInv(s) && IsRun(s, events) && st != NoState
    ensures q in Run(s, events).qstats <==> q in s.qstats
    ensures q in s.qstats ==> QueueExcess(Run(s, events), q, st) == QueueExcess(s, q, st) + RemovalsIn(s, events, [q], st)
    decreases events
  {
    hide BaseInv, Apply, QueueExcess, RemovesIn;
    if events != [] {
      StepQueueExcess(s, events[0], st, q);
      StepBase(s, events[0]);
      RunQueueExcess(Apply(s, events[0]), events[1..], st, q);
    }
  }

  lemma {:induction false} NoOtherRemovals(s: Server, events: seq<Event>, st: JobState)
    requires BaseInv(s) && IsRun(s, events) && st != NoState && !Over(st)
    ensures Removals(s, events, st) == 0 && forall qs :: RemovalsIn(s, events, qs, st) == 0
    decreases events
  {
    hide BaseInv, Apply, Removes;
    if events != [] {
      RemovesOnlyOver(s, events[0], st);
      StepBase(s, events[0]);
      NoOtherRemovals(Apply(s, events[0]), events[1..], st);
    }
  }

  function JobsIn(s: Server, st: JobState): set<JobId> {
    set id | id in s.jobs && s.jobs[id].state == st
  }

  function JobsOf(s: Server, q: QueueId, st: JobState): set<JobId> {
    set id | id in s.jobs && s.jobs[id].queue == q && s.jobs[id].state == st
  }

  // In every run, for every state and queue, a counter is the number of jobs of the table in that
  // state plus the number of jobs removed in that state. Only finished jobs are ever removed so.
  lemma CountersInAllRuns(s: Server, events: seq<Event>, st: JobState, q: QueueId)
    requires Initial(s) && IsRun(s, events) && st != NoState
    ensures var t := Run(s, events);
            && t.stats.Get(st) == |JobsIn(t, st)| + Removals(s, events, st)
            && (q in t.qstats ==> t.qstats[q].Get(st) == |JobsOf(t, q, st)| + RemovalsIn(s, events, [q], st))
            && (!Over(st) ==> Removals(s, events, st) == 0 && RemovalsIn(s, events, [q], st) == 0)
  {
    InitialBase(s);
    RunBase(s, events);
    RunExcess(s, events, st);
    RunQueueExcess(s, events, st, q);
    if !Over(st) { NoOtherRemovals(s, events, st); }
    hide Run, Removals, RemovalsIn, IsRun;
    SumsAreCounts(Run(s, events), st, q);
  }

  lemma SumsAreCounts(t: Server, st: JobState, q: QueueId)
    requires TableInv(t)
    ensures Sum(t.order, t.jobs, W(st)) == |JobsIn(t, st)|
    ensures Sum(t.order, t.jobs, WQ(q, st)) == |JobsOf(t, q, st)|
  {
    SumIsCount(t.order, t.jobs, W(st), JobsIn(t, st));
    SumIsCount(t.order, t.jobs, WQ(q, st), JobsOf(t, q, st));
  }

  function QueueTotal(m: map<QueueId, Stats>, qs: seq<QueueId>, st: JobState): int {
    if qs == [] then 0 else (if qs[0] in m then m[qs[0]].Get(st) else 0) + QueueTotal(m, qs[1..], st)
  }

  function WIn(qs: seq<QueueId>, st: JobState): Job -> int {
    (j: Job) => if j.queue in qs && j.state == st then 1 else 0
  }

  lemma {:induction false} SumSplits(order: seq<JobId>, jobs: map<JobId, Job>, w: Job -> int, w1: Job -> int, w2: Job -> int)
    requires forall id :: id in jobs ==> w(jobs[id]) == w1(jobs[id]) + w2(jobs[id])
    ensures Sum(order, jobs, w) == Sum(order, jobs, w1) + Sum(order, jobs, w2)
  {
    if order != [] { SumSplits(order[1..], jobs, w, w1, w2); }
  }

  lemma {:induction false} SumSame(order: seq<JobId>, jobs: map<JobId, Job>, w: Job -> int, w': Job -> int)
    requires forall id :: id in jobs ==> w(jobs[id]) == w'(jobs[id])
    ensures Sum(order, jobs, w) == Sum(order, jobs, w')
  {
    if order != [] { SumSame(order[1..], jobs, w, w'); }
  }

  lemma {:induction false} QueueTotalIsSum(s: Server, qs: seq<QueueId>, st: JobState, extra: seq<int>)
    requires Distinct(qs) && |extra| == |qs|
    requires forall i :: 0 <= i < |qs| ==> qs[i] in s.qstats && QueueExcess(s, qs[i], st) == extra[i]
    ensures QueueTotal(s.qstats, qs, st) == Sum(s.order, s.jobs, WIn(qs, st)) + Total(extra)
  {
    if qs == [] {
      SumSplits(s.order, s.jobs, WIn(qs, st), WIn(qs, st), WIn(qs, st));
    } else {
      QueueTotalIsSum(s, qs[1..], st, extra[1..]);
      assert qs[0] !in qs[1..];
      SumSplits(s.order, s.jobs, WIn(qs, st), WQ(qs[0], st), WIn(qs[1..], st));
    }
  }

  function Total(xs: seq<int>): int {
    if xs == [] then 0 else xs[0] + Total(xs[1..])
  }

  // The removals of each queue in turn.
  function RemovalsEach(s: Server, events: seq<Event>, qs: seq<QueueId>, st: JobState): (r: seq<int>)
    ensures |r| == |qs| && forall i :: 0 <= i < |qs| ==> r[i] == RemovalsIn(s, events, [qs[i]], st)
  {
    if qs == [] then [] else [RemovalsIn(s, events, [qs[0]], st)] + RemovalsEach(s, events, qs[1..], st)
  }

  lemma {:induction false} RemovalsSplit(s: Server, events: seq<Event>, q: QueueId, rest: seq<QueueId>, st: JobState)
    requires q !in rest
    ensures RemovalsIn(s, events, [q] + rest, st) == RemovalsIn(s, events, [q], st) + RemovalsIn(s, events, rest, st)
    decreases events
  {
    hide Apply, Removes;
    if events != [] { RemovalsSplit(Apply(s, events[0]), events[1..], q, rest, st); }
  }

  lemma {:induction false} RemovalsFromNone(s: Server, events: seq<Event>, st: JobState)
    ensures RemovalsIn(s, events, [], st) == 0
    decreases events
  {
    hide Apply, Removes;
    if events != [] { RemovalsFromNone(Apply(s, events[0]), events[1..], st); }
  }

  lemma {:induction false} RemovalsAddUp(s: Server, events: seq<Event>, qs: seq<QueueId>, st: JobState)
    requires Distinct(qs)
    ensures Total(RemovalsEach(s, events, qs, st)) == RemovalsIn(s, events, qs, st)
    decreases qs
  {
    if qs == [] {
      RemovalsFromNone(s, events, st);
    } else {
      assert qs[0] !in qs[1..] && [qs[0]] + qs[1..] == qs;
      RemovalsSplit(s, events, qs[0], qs[1..], st);
      RemovalsAddUp(s, events, qs[1..], st);
    }
  }

  // A removed job's queue has counters, and no step changes which queues have.
  lemma {:induction false} RemovalsFromAll(s: Server, events: seq<Event>, qs: seq<QueueId>, st: JobState)
    requires BaseInv(s) && IsRun(s, events) && st != NoState && forall q :: q in qs <==> q in s.qstats
    ensures RemovalsIn(s, events, qs, st) == Removals(s, events, st)
    decreases events
  {
    if events != [] {
      assert RemovesIn(s, events[0], qs, st) <==> Removes(s, events[0], st);
      hide BaseInv, Apply, Removes, RemovesIn;
      StepBase(s, events[0]);
      forall q ensures q in Apply(s, events[0]).qstats <==> q in s.qstats { StepQueueExcess(s, events[0], st, q); }
      RemovalsFromAll(Apply(s, events[0]), events[1..], qs, st);
    }
  }

  // In every run the counters of all queues together make up the server's counter.
  lemma QueueCountersAddUp(s: Server, events: seq<Event>, st: JobState, qs: seq<QueueId>)
    requires Initial(s) && IsRun(s, events) && st != NoState && Distinct(qs)
    requires forall q :: q in qs <==> q in s.qstats
    ensures QueueTotal(Run(s, events).qstats, qs, st) == Run(s, events).stats.Get(st)
  {
    var t := Run(s, events);
    var extra := RemovalsEach(s, events, qs, st);
    hide BaseInv, Run, IsRun, RemovalsIn, Removals, QueueExcess, QueueTotal, Initial;
    InitialBase(s);
    forall q ensures q in t.qstats <==> q in s.qstats { RunQueueExcess(s, events, st, q); }
    forall i | 0 <= i < |qs| ensures qs[i] in t.qstats && QueueExcess(t, qs[i], st) == extra[i] { QueueExcessAfter(s, events, st, qs[i]); }
    RunBase(s, events);
    RunExcess(s, events, st);
    hide RemovalsEach;
    QueueTotalIsSum(t, qs, st, extra);
    RemovalsAddUp(s, events, qs, st);
    RemovalsFromAll(s, events, qs, st);
    AllQueuesSum(t, qs, st);
    assert Excess(s, st) == 0 by { InitialExcess(s, st); }
  }

  lemma InitialExcess(s: Server, st: JobState)
    requires Initial(s)
    ensures Excess(s, st) == 0 && forall q :: q in s.qstats ==> QueueExcess(s, q, st) == 0
  {
  }

  lemma QueueExcessAfter(s: Server, events: seq<Event>, st: JobState, q: QueueId)
    requires Initial(s) && IsRun(s, events) && st != NoState && q in s.qstats
    ensures q in Run(s, events).qstats && QueueExcess(Run(s, events), q, st) == RemovalsIn(s, events, [q], st)
  {
    InitialBase(s);
    RunQueueExcess(s, events, st, q);
    InitialExcess(s, st);
    hide Run, RemovalsIn, IsRun, QueueExcess;
  }

  lemma AllQueuesSum(t: Server, qs: seq<QueueId>, st: JobState)
    requires BaseInv(t) && forall q :: q in qs <==> q in t.qstats
    ensures Sum(t.order, t.jobs, WIn(qs, st)) == Sum(t.order, t.jobs, W(st))
  {
    hide ListOk;
    SumSame(t.order, t.jobs, WIn(qs, st), W(st));
  }

  // -------------------------------------------------------------------------
  // A report that names a deleted job
  // -------------------------------------------------------------------------

  // Every step keeps a counter exact if and only if it removes no job in the counted state.
  lemma StepKeepsCounterIff(s: Server, e: Event, st: JobState)
    requires BaseInv(s) && CounterFor(s, st) && st != NoState
    ensures CounterFor(Apply(s, e), st) <==> !Removes(s, e, st)
  {
    StepExcess(s, e, st);
    hide Apply, BaseInv;
  }

  // A job can be removed once it has been saved.
  function SavedAndRemoved(s: Server, id: JobId): Server {
    CleanupJob(SetMarks(s, id, false, false), id)
  }

  lemma SavedAndRemovedExcess(s: Server, id: JobId, st: JobState)
    requires TableInv(s) && id in s.jobs && st != NoState
    ensures Excess(SavedAndRemoved(s, id), st) == Excess(s, st) + One(s.jobs[id].deleted && s.jobs[id].state == st)
  {
    var u := SetMarks(s, id, false, false);
    EditsEven(s, u, id, st, 0);
    EditsTable(s, u, id);
    SumWithout(u.order, u.jobs, id, W(st));
  }

  // Once a job that a recon reports as ended has been saved and removed, a counter is exact if and only
  // if the job was not deleted when the report came, or ended in another state.
  lemma EndedItemKeepsCounterIff(s: Server, id: JobId, failed: bool, st: JobState)
    requires BaseInv(s) && CounterFor(s, st) && id in s.jobs && st != NoState
    ensures CounterFor(SavedAndRemoved(ReconOne(s, Ended(id, failed)), id), st) <==> !s.jobs[id].deleted || st != FinalState(failed)
  {
    var t := ReconOne(s, Ended(id, failed));
    ReconOneEven(s, Ended(id, failed), st, 0);
    ChangeShape(s, id, FinalState(failed), None, true);
    SavedAndRemovedExcess(t, id, st);
    hide ChangeJobState, SavedAndRemoved, BaseInv;
  }

  // The state a report puts its job in.
  function Reported(e: Event): JobState
    requires e.StartedMsg? || e.CompletedMsg?
  {
    if e.StartedMsg? then Running else FinalState(e.failed)
  }

  // So does a start report or a completion, if and only if the job was not deleted when it came, or the
  // report put it in another state.
  lemma ReportKeepsCounterIff(s: Server, e: Event, st: JobState)
    requires e.StartedMsg? || e.CompletedMsg?
    requires BaseInv(s) && CounterFor(s, st) && e.id in s.jobs && st != NoState
    ensures CounterFor(SavedAndRemoved(Apply(s, e), e.id), st) <==> !s.jobs[e.id].deleted || st != Reported(e)
  {
    ReportEven(s, e, st, 0);
    ReportedJob(s, e);
    hide Apply, SavedAndRemoved, BaseInv, Excess, QueueExcess, TableInv, CounterFor;
    SavedAndRemovedExcess(Apply(s, e), e.id, st);
    CounterIsExcess(s, st);
    CounterIsExcess(SavedAndRemoved(Apply(s, e), e.id), st);
  }

  lemma CounterIsExcess(s: Server, st: JobState)
    requires st != NoState
    ensures CounterFor(s, st) <==> Excess(s, st) == 0
  {
  }

  lemma ReportedJob(s: Server, e: Event)
    requires (e.StartedMsg? || e.CompletedMsg?) && TableInv(s) && e.id in s.jobs
    ensures var t := Apply(s, e);
            TableInv(t) && e.id in t.jobs && t.jobs[e.id].state == Reported(e) && t.jobs[e.id].deleted == s.jobs[e.id].deleted
  {
    var s1 := if e.StartedMsg? then s else NeedsReturned(s, e.id);
    assert Known(s, e.id);
    EditsTable(s, s1, e.id);
    ChangeKeepsTable(s1, e.id, Reported(e), None, true);
    ChangeShape(s1, e.id, Reported(e), None, true);
    hide ChangeJobState, TableInv, Deallocate;
    EditsTable(ChangeJobState(s1, e.id, Reported(e), None, true), Apply(s, e), e.id);
  }
}
