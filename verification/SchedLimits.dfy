/**
 The run limits. The load of a queue, its running jobs and the starts not yet answered, stays within
 the queue's limit in every run without recon messages, without lowered limits and with start reports only
 for jobs that were sent; the load of the whole system stays within one more than the system limit.
 */
module SchedLimits {
  import opened Options
  import opened JobStates
  import opened Sequences
  import opened SchedState
  import opened SchedSteps
  import opened SchedDefer
  import opened SchedRun
  import opened SchedCounters

  function Load(x: Stats): int {
    x.Get(Running) + x.startPending
  }

  ghost predicate WithinLimits(s: Server, q: QueueId) {
    && (q in s.queues && q in s.qstats ==> Load(s.qstats[q]) <= s.queues[q].limit)
    && (s.maxRun != UNLIMITED_JOBS ==> Load(s.stats) <= s.maxRun + 1)
  }

  function Sent(): Job -> int {
    (j: Job) => One(j.started)
  }

  function SentIn(q: QueueId): Job -> int {
    (j: Job) => One(j.queue == q && j.started)
  }

  // Every start that was sent and not answered is counted, in the queue and in the system.
  ghost predicate SentCounted(s: Server, q: QueueId) {
    && (q in s.qstats ==> Sum(s.order, s.jobs, SentIn(q)) <= s.qstats[q].startPending)
    && Sum(s.order, s.jobs, Sent()) <= s.stats.startPending
  }

  // Only a pending job, or one deleted since, waits for its agent's answer.
  predicate SentIsPending(j: Job) {
    j.started ==> j.state == Pending || j.deleted
  }

  predicate SentArePending(s: Server) {
    forall id :: id in s.jobs ==> SentIsPending(s.jobs[id])
  }

  // No recon message, no start report that answers no start, and no limit is lowered.
  predicate Allowed(s: Server, e: Event) {
    && !e.ReconMsg?
    && (e.StartedMsg? && e.id in s.jobs ==> s.jobs[e.id].started)
    && (e.ChangeQueue? && e.q in s.queues ==> e.limit >= s.queues[e.q].limit)
  }

  predicate LimitedRun(s: Server, events: seq<Event>)
    decreases events
  {
    events == [] || (Allowed(s, events[0]) && MessageFits(s, events[0]) && LimitedRun(Apply(s, events[0]), events[1..]))
  }

  // -------------------------------------------------------------------------
  // Only the scheduler adds load
  // -------------------------------------------------------------------------

  ghost predicate NoMoreLoad(s: Server, t: Server, q: QueueId) {
    && t.queues.Keys == s.queues.Keys && t.qstats.Keys == s.qstats.Keys && t.maxRun == s.maxRun
    && (q in s.queues ==> t.queues[q].limit >= s.queues[q].limit)
    && (q in s.qstats ==> Load(t.qstats[q]) <= Load(s.qstats[q]))
    && Load(t.stats) <= Load(s.stats)
  }

  lemma LoadKept(s: Server, t: Server, q: QueueId)
    requires WithinLimits(s, q) && NoMoreLoad(s, t, q)
    ensures WithinLimits(t, q)
  {
    assert q in s.queues.Keys <==> q in t.queues.Keys;
    assert q in s.qstats.Keys <==> q in t.qstats.Keys;
  }

  lemma LoadChain(s: Server, t: Server, u: Server, q: QueueId)
    requires NoMoreLoad(s, t, q) && NoMoreLoad(t, u, q)
    ensures NoMoreLoad(s, u, q)
  {
    assert q in s.queues.Keys <==> q in t.queues.Keys;
    assert q in s.qstats.Keys <==> q in t.qstats.Keys;
  }

  lemma SameLoad(s: Server, t: Server, q: QueueId)
    requires t.queues.Keys == s.queues.Keys && t.qstats == s.qstats && t.maxRun == s.maxRun && t.stats == s.stats
    requires q in s.queues ==> t.queues[q].limit >= s.queues[q].limit
    ensures NoMoreLoad(s, t, q)
  {
  }

  // Leaving one state and entering another, on one set of counters.
  lemma MovedLoad(x: Stats, from: JobState, to: JobState, started: bool)
    ensures Load(Left(x, from)) == Load(x) - One(from == Running)
    ensures Load(Entered(x, to, started)) == Load(x) + One(to == Running) - One(started && (to == Running || to == Exited))
    ensures Entered(x, to, started).startPending == x.startPending - One(started && (to == Running || to == Exited))
    ensures Left(x, from).startPending == x.startPending
  {
  }

  function Answered(to: JobState, started: bool): int {
    One(started && (to == Running || to == Exited))
  }

  lemma RecountLoad(m: map<QueueId, Stats>, q: QueueId, st: JobState, q': QueueId, st': JobState, started: bool, k: QueueId)
    requires q in m && q' in m && k in m
    ensures var r := Recount(m, q, st, q', st', started);
            && k in r
            && Load(r[k]) == Load(m[k]) - One(q == k && st == Running) + One(q' == k && st' == Running)
                             - (if q' == k then Answered(st', started) else 0)
            && r[k].startPending == m[k].startPending - (if q' == k then Answered(st', started) else 0)
  {
    var left := m[q := Left(m[q], st)];
    MovedLoad(m[q], st, st', started);
    MovedLoad(left[q'], st, st', started);
    hide Left, Entered, Load;
  }

  lemma ServerLoad(x: Stats, from: JobState, to: JobState, started: bool)
    ensures var y := Entered(Left(x, from), to, started);
            && Load(y) == Load(x) - One(from == Running) + One(to == Running) - Answered(to, started)
            && y.startPending == x.startPending - Answered(to, started)
  {
    MovedLoad(x, from, to, started);
    MovedLoad(Left(x, from), from, to, started);
    hide Left, Entered, Load;
  }

  // A job becomes running only on the report that answers its start.
  lemma ChangeLoad(s: Server, id: JobId, to: JobState, q': Option<QueueId>, dirty: bool, q: QueueId)
    requires Known(s, id) && (q'.Some? ==> q'.value in s.qstats)
    requires to == Running ==> s.jobs[id].started
    ensures NoMoreLoad(s, ChangeJobState(s, id, to, q', dirty), q)
  {
    var j := s.jobs[id];
    ServerLoad(s.stats, j.state, to, j.started);
    if q in s.qstats { RecountLoad(s.qstats, j.queue, j.state, Changed(j, to, q', dirty).queue, to, j.started, q); }
    ChangeShape(s, id, to, q', dirty);
    ChangeCounts(s, id, to, q', dirty);
    hide Left, Entered, Load, Recount, ChangeJobState;
  }

  lemma AddLoad(s: Server, id: JobId, r: Request, q: QueueId)
    ensures NoMoreLoad(s, AddJob(s, id, r), q)
  {
    if !AddRefused(s, id, r) {
      ChangeLoad(AddEntered(s, id, r), id, AddTarget(r), None, true, q);
      hide ChangeJobState;
    }
  }

  // An edit and a change of state.
  lemma EditChangeLoad(s: Server, s1: Server, id: JobId, to: JobState, q': Option<QueueId>, dirty: bool, q: QueueId)
    requires Known(s, id) && Edits(s, s1, id) && s1.maxRun == s.maxRun && (q'.Some? ==> q'.value in s.qstats)
    requires to == Running ==> s1.jobs[id].started
    ensures NoMoreLoad(s, ChangeJobState(s1, id, to, q', dirty), q)
  {
    SameLoad(s, s1, q);
    ChangeLoad(s1, id, to, q', dirty, q);
    hide ChangeJobState;
    LoadChain(s, s1, ChangeJobState(s1, id, to, q', dirty), q);
  }

  lemma UserLoad(s: Server, e: Event, q: QueueId)
    requires e.Modify? || e.Delete? || e.Signal?
    ensures NoMoreLoad(s, Apply(s, e), q)
  {
    SameLoad(s, s, q);
    hide ChangeJobState, NoMoreLoad;
    match e
    case Modify(id, m) =>
      if !ModRefused(s, id, m) {
        EditChangeLoad(s, ModEdited(s, id, m), id, ModTarget(s.jobs[id], m), m.queue, ModDirty(s.jobs[id], m), q);
      }
    case Delete(id) =>
      if Known(s, id) && !s.jobs[id].deleted { EditChangeLoad(s, DeleteMarked(s, id), id, NoState, None, false, q); }
    case Signal(id) =>
      if Known(s, id) && !s.jobs[id].deleted && s.jobs[id].state == Unknown {
        EditChangeLoad(s, NeedsReturned(s, id), id, Exited, None, true, q);
      }
  }

  lemma {:induction false} ReleaseLoad(s: Server, list: seq<JobId>, now: int, q: QueueId)
    ensures NoMoreLoad(s, ReleaseLoop(s, list, now), q)
    decreases list
  {
    if list == [] || !Known(s, list[0]) || now < s.jobs[list[0]].deferTime {
      SameLoad(s, s, q);
    } else {
      EditChangeLoad(s, Undeferred(s, list[0]), list[0], Pending, None, false, q);
      hide ChangeJobState, NoMoreLoad;
      ReleaseLoad(Released(s, list[0]), list[1..], now, q);
      LoadChain(s, Released(s, list[0]), ReleaseLoop(s, list, now), q);
    }
  }

  lemma ReportLoad(s: Server, e: Event, q: QueueId)
    requires (e.StartedMsg? || e.CompletedMsg?) && Allowed(s, e)
    ensures NoMoreLoad(s, Apply(s, e), q)
  {
    SameLoad(s, s, q);
    if Known(s, e.id) {
      var s1 := if e.StartedMsg? then s else NeedsReturned(s, e.id);
      var to := if e.StartedMsg? then Running else FinalState(e.failed);
      EditChangeLoad(s, s1, e.id, to, None, true, q);
      ChangeShape(s1, e.id, to, None, true);
      hide ChangeJobState, NoMoreLoad;
      var t := ChangeJobState(s1, e.id, to, None, true);
      SameLoad(t, ClearStarted(t, e.id), q);
      LoadChain(s, t, ClearStarted(t, e.id), q);
    }
  }

  lemma {:induction false} UnknownLoad(s: Server, list: seq<JobId>, a: AgentId, q: QueueId)
    ensures NoMoreLoad(s, UnknownLoop(s, list, a), q)
    decreases list
  {
    if list == [] {
      SameLoad(s, s, q);
    } else if RunsOn(s, list[0], a) {
      var t := UnknownOne(s, list[0]);
      EditChangeLoad(s, FlagsCleared(s, list[0]), list[0], Unknown, None, true, q);
      hide NoMoreLoad, ChangeJobState;
      UnknownLoad(t, list[1..], a, q);
      LoadChain(s, t, UnknownLoop(s, list, a), q);
    } else {
      UnknownLoad(s, list[1..], a, q);
    }
  }

  lemma DisconnectLoad(s: Server, a: AgentId, q: QueueId)
    ensures NoMoreLoad(s, Disconnect(s, a), q)
  {
    UnknownLoad(s, s.order, a, q);
    hide UnknownLoop;
    SameLoad(UnknownLoop(s, s.order, a), Disconnect(s, a), q);
    LoadChain(s, UnknownLoop(s, s.order, a), Disconnect(s, a), q);
  }

  // The start tests leave room for one more job in the queue, and one more than the limit in the
  // system.
  lemma StartWithinLimits(s: Server, id: JobId, q: QueueId)
    requires WithinLimits(s, q) && Startable(s, Some(id))
    ensures WithinLimits(Start(s, id), q)
  {
  }

  // A start keeps the system within its limit, and not only within one more, if and only if there was
  // room.
  lemma StartKeepsSystemLimitIff(s: Server, id: JobId)
    requires Startable(s, Some(id))
    ensures Load(Start(s, id).stats) <= s.maxRun <==> Load(s.stats) < s.maxRun
  {
  }

  // A pass starts no more jobs than its quota, so one that finds no start unanswered keeps the limit.
  lemma {:induction false} PassAddsQuota(s: Server, i: nat, quota: int)
    ensures var t := PassFrom(s, i, quota);
            t.stats.counts == s.stats.counts && t.stats.startPending <= s.stats.startPending + (if quota < 1 then 1 else quota)
    decreases |s.pool| - i
  {
    hide Startable;
    if i < |s.pool| {
      if Startable(s, s.pool[i]) {
        StartFacts(s, s.pool[i]);
        if quota > 1 { PassAddsQuota(Start(s, s.pool[i].value), i + 1, quota - 1); }
      } else {
        PassAddsQuota(s, i + 1, quota);
      }
    }
  }

  lemma ScheduleKeepsSystemLimit(s: Server)
    requires s.maxRun != UNLIMITED_JOBS && s.stats.startPending <= 0 && s.stats.Get(Running) <= s.maxRun
    ensures Load(CheckJobs(s).stats) <= s.maxRun
  {
    hide PassFrom, GeneratePool;
    var s1 := if s.recalc then GeneratePool(s) else s;
    if s.recalc { GenerateShape(s); }
    PassAddsQuota(s1, 0, Quota(s1));
  }

  lemma {:induction false} PassWithinLimits(s: Server, i: nat, quota: int, q: QueueId)
    requires WithinLimits(s, q)
    ensures WithinLimits(PassFrom(s, i, quota), q)
    decreases |s.pool| - i
  {
    hide Start, Startable, WithinLimits, Known;
    if i < |s.pool| {
      if Startable(s, s.pool[i]) {
        StartFacts(s, s.pool[i]);
        StartWithinLimits(s, s.pool[i].value, q);
        if quota > 1 { PassWithinLimits(Start(s, s.pool[i].value), i + 1, quota - 1, q); }
      } else {
        PassWithinLimits(s, i + 1, quota, q);
      }
    }
  }

  lemma ScheduleWithinLimits(s: Server, q: QueueId)
    requires WithinLimits(s, q)
    ensures WithinLimits(CheckJobs(s), q)
  {
    hide PassFrom, GeneratePool;
    var s1 := if s.recalc then GeneratePool(s) else s;
    if s.recalc { GenerateShape(s); }
    PassWithinLimits(s1, 0, Quota(s1), q);
  }

  lemma RestLoad(s: Server, e: Event, q: QueueId)
    requires Allowed(s, e) && (e.ChangeQueue? || e.ChangeResource? || e.LoginMsg? || e.Cleanup? || e.Marks?)
    ensures NoMoreLoad(s, Apply(s, e), q)
  {
    hide NoMoreLoad, Without, ClearSlots;
    SameLoad(s, Apply(s, e), q);
  }

  lemma StepLoad(s: Server, e: Event, q: QueueId)
    requires Allowed(s, e) && !e.ScheduleTimer?
    ensures NoMoreLoad(s, Apply(s, e), q)
  {
    hide NoMoreLoad, AddJob, ReleaseLoop, Disconnect;
    if e.Add? { AddLoad(s, e.id, e.request, q); }
    else if e.ReleaseTimer? { ReleaseLoad(s, s.deferred, e.now, q); }
    else if e.AgentGone? { DisconnectLoad(s, e.a, q); }
    else {
      hide Apply;
      if e.Modify? || e.Delete? || e.Signal? { UserLoad(s, e, q); }
      else if e.StartedMsg? || e.CompletedMsg? { ReportLoad(s, e, q); }
      else { RestLoad(s, e, q); }
    }
  }

  lemma StepWithinLimits(s: Server, e: Event, q: QueueId)
    requires WithinLimits(s, q) && Allowed(s, e)
    ensures WithinLimits(Apply(s, e), q)
  {
    hide WithinLimits, NoMoreLoad, CheckJobs;
    if e.ScheduleTimer? {
      ScheduleWithinLimits(s, q);
    } else {
      hide Apply;
      StepLoad(s, e, q);
      LoadKept(s, Apply(s, e), q);
    }
  }

  // -------------------------------------------------------------------------
  // Every unanswered start is counted
  // -------------------------------------------------------------------------

  lemma SentJob(s: Server, t: Server, id: JobId)
    requires SentArePending(s) && id in t.jobs && t.jobs == s.jobs[id := t.jobs[id]] && SentIsPending(t.jobs[id])
    ensures SentArePending(t)
  {
  }

  // What a change of state does to the number of unanswered starts.
  lemma ChangePending(s: Server, id: JobId, to: JobState, q': Option<QueueId>, dirty: bool, q: QueueId)
    requires Known(s, id) && (q'.Some? ==> q'.value in s.qstats)
    ensures var t := ChangeJobState(s, id, to, q', dirty);
            && t.stats.startPending >= s.stats.startPending - Answered(to, s.jobs[id].started)
            && (q in s.qstats ==>
                  && q in t.qstats
                  && t.qstats[q].startPending >= s.qstats[q].startPending
                     - (if Changed(s.jobs[id], to, q', dirty).queue == q then Answered(to, s.jobs[id].started) else 0))
  {
    var j := s.jobs[id];
    ServerLoad(s.stats, j.state, to, j.started);
    if q in s.qstats { RecountLoad(s.qstats, j.queue, j.state, Changed(j, to, q', dirty).queue, to, j.started, q); }
    ChangeCounts(s, id, to, q', dirty);
    hide Left, Entered, Load, Recount, ChangeJobState;
  }

  // A step that answers no start: the job was not sent, or goes to a state that is no answer.
  lemma EditChangeSent(s: Server, s1: Server, id: JobId, to: JobState, q': Option<QueueId>, dirty: bool, q: QueueId)
    requires TableInv(s) && Edits(s, s1, id) && (q'.Some? ==> q'.value in s.qstats) && SentCounted(s, q)
    requires s1.jobs[id].started ==> s.jobs[id].started && q'.None? && to != Running && to != Exited
    ensures Known(s1, id) && SentCounted(ChangeJobState(s1, id, to, q', dirty), q)
  {
    EditsTable(s, s1, id);
    assert Known(s1, id);
    ChangeSentSums(s, s1, id, to, q', dirty, q);
    hide ChangeJobState, Sum, TableInv, Known, Sent, SentIn;
    ChangePending(s1, id, to, q', dirty, q);
    var t := ChangeJobState(s1, id, to, q', dirty);
    assert q in t.qstats.Keys <==> q in s.qstats.Keys;
  }

  lemma ChangeSentSums(s: Server, s1: Server, id: JobId, to: JobState, q': Option<QueueId>, dirty: bool, q: QueueId)
    requires TableInv(s) && Edits(s, s1, id) && Known(s1, id) && (q'.Some? ==> q'.value in s.qstats)
    requires s1.jobs[id].started ==> s.jobs[id].started && q'.None?
    ensures var t := ChangeJobState(s1, id, to, q', dirty);
            && Sum(t.order, t.jobs, Sent()) <= Sum(s.order, s.jobs, Sent())
            && Sum(t.order, t.jobs, SentIn(q)) <= Sum(s.order, s.jobs, SentIn(q))
            && t.qstats.Keys == s.qstats.Keys
  {
    ChangeShape(s1, id, to, q', dirty);
    hide ChangeJobState, Sum, TableInv, Known, Sent, SentIn;
    var j := Changed(s1.jobs[id], to, q', dirty);
    SentDrops(s, id, j, q);
    assert s.jobs[id := j] == s1.jobs[id := j];
  }

  lemma SentDrops(s: Server, id: JobId, j: Job, q: QueueId)
    requires TableInv(s) && id in s.jobs && (j.started ==> s.jobs[id].started && j.queue == s.jobs[id].queue)
    ensures Sum(s.order, s.jobs[id := j], Sent()) <= Sum(s.order, s.jobs, Sent())
    ensures Sum(s.order, s.jobs[id := j], SentIn(q)) <= Sum(s.order, s.jobs, SentIn(q))
  {
    SumUpdate(s.order, s.jobs, id, j, Sent());
    SumUpdate(s.order, s.jobs, id, j, SentIn(q));
  }

  // A report takes the job out of the unanswered starts.
  lemma ReportSent(s: Server, s1: Server, id: JobId, to: JobState, q: QueueId)
    requires TableInv(s) && Edits(s, s1, id) && s1.jobs == s.jobs && SentCounted(s, q)
    ensures Known(s1, id) && id in ChangeJobState(s1, id, to, None, true).jobs
    ensures SentCounted(ClearStarted(ChangeJobState(s1, id, to, None, true), id), q)
  {
    EditsTable(s, s1, id);
    ChangePending(s1, id, to, None, true, q);
    ChangeShape(s1, id, to, None, true);
    hide ChangeJobState;
    var t := ClearStarted(ChangeJobState(s1, id, to, None, true), id);
    var j := Changed(s1.jobs[id], to, None, true).(started := false);
    AnsweredDrops(s, id, j, q);
    hide TableInv, Sum;
    assert s.jobs[id := j] == t.jobs;
    assert q in t.qstats.Keys <==> q in s.qstats.Keys;
  }

  lemma AnsweredDrops(s: Server, id: JobId, j: Job, q: QueueId)
    requires TableInv(s) && id in s.jobs && !j.started
    ensures Sum(s.order, s.jobs[id := j], Sent()) == Sum(s.order, s.jobs, Sent()) - One(s.jobs[id].started)
    ensures Sum(s.order, s.jobs[id := j], SentIn(q)) == Sum(s.order, s.jobs, SentIn(q)) - One(s.jobs[id].queue == q && s.jobs[id].started)
  {
    SumUpdate(s.order, s.jobs, id, j, Sent());
    SumUpdate(s.order, s.jobs, id, j, SentIn(q));
  }

  lemma AddSent(s: Server, id: JobId, r: Request, q: QueueId)
    requires BaseInv(s) && SentCounted(s, q) && SentArePending(s)
    ensures SentCounted(AddJob(s, id, r), q) && SentArePending(AddJob(s, id, r))
  {
    if !AddRefused(s, id, r) {
      var s1 := AddEntered(s, id, r);
      AddEnteredOk(s, id, r);
      hide ChangeJobState, ListOk;
      assert SentCounted(s1, q) by {
        SumOutside(s.order, s.jobs, id, s1.jobs[id], Sent());
        SumOutside(s.order, s.jobs, id, s1.jobs[id], SentIn(q));
        SumAppend(s.order, s1.jobs, id, Sent());
        SumAppend(s.order, s1.jobs, id, SentIn(q));
      }
      hide AddEntered;
      EditChangeSent(s1, s1, id, AddTarget(r), None, true, q);
      ChangeShape(s1, id, AddTarget(r), None, true);
      assert forall x :: x in s.jobs ==> SentIsPending(s.jobs[x]);
    }
  }

  lemma ModSent(s: Server, id: JobId, m: Mod, q: QueueId)
    requires TableInv(s) && SentCounted(s, q) && SentArePending(s)
    ensures SentCounted(ModJob(s, id, m), q) && SentArePending(ModJob(s, id, m))
  {
    hide ChangeJobState, SentCounted, TableInv, ModDirty, ModTarget, ModList, Deallocate;
    if !ModRefused(s, id, m) {
      var s1, to, dirty := ModEdited(s, id, m), ModTarget(s.jobs[id], m), ModDirty(s.jobs[id], m);
      EditChangeSent(s, s1, id, to, m.queue, dirty, q);
      ChangeShape(s1, id, to, m.queue, dirty);
      SentJob(s, ModJob(s, id, m), id);
    }
  }

  lemma UserSent(s: Server, e: Event, q: QueueId)
    requires TableInv(s) && SentCounted(s, q) && SentArePending(s) && (e.Modify? || e.Delete? || e.Signal?)
    ensures SentCounted(Apply(s, e), q) && SentArePending(Apply(s, e))
  {
    hide ChangeJobState, SentCounted, TableInv, ModJob;
    match e
    case Modify(id, m) => ModSent(s, id, m, q);
    case Delete(id) =>
      if Known(s, id) && !s.jobs[id].deleted {
        EditChangeSent(s, DeleteMarked(s, id), id, NoState, None, false, q);
        ChangeShape(DeleteMarked(s, id), id, NoState, None, false);
        SentJob(s, Apply(s, e), id);
      }
    case Signal(id) =>
      if Known(s, id) && !s.jobs[id].deleted && s.jobs[id].state == Unknown {
        EditChangeSent(s, NeedsReturned(s, id), id, Exited, None, true, q);
        ChangeShape(NeedsReturned(s, id), id, Exited, None, true);
        SentJob(s, Apply(s, e), id);
      }
  }

  lemma EditsSent(s: Server, s1: Server, id: JobId, q: QueueId)
    requires TableInv(s) && Edits(s, s1, id) && SentCounted(s, q) && SentArePending(s)
    requires s1.jobs[id].started == s.jobs[id].started && s1.jobs[id].deleted == s.jobs[id].deleted
    ensures SentCounted(s1, q) && SentArePending(s1)
  {
    SumUpdate(s.order, s.jobs, id, s1.jobs[id], Sent());
    SumUpdate(s.order, s.jobs, id, s1.jobs[id], SentIn(q));
  }

  lemma CleanupSent(s: Server, id: JobId, q: QueueId)
    requires TableInv(s) && SentCounted(s, q) && SentArePending(s)
    ensures SentCounted(CleanupJob(s, id), q) && SentArePending(CleanupJob(s, id))
  {
    if id in s.jobs {
      SumWithout(s.order, s.jobs, id, Sent());
      SumWithout(s.order, s.jobs, id, SentIn(q));
    }
  }

  lemma {:induction false} ReleaseSent(s: Server, now: int, q: QueueId)
    requires BaseInv(s) && SentCounted(s, q) && SentArePending(s)
    ensures SentCounted(ReleaseLoop(s, s.deferred, now), q) && SentArePending(ReleaseLoop(s, s.deferred, now))
    decreases |s.deferred|
  {
    if !(s.deferred == [] || !Known(s, s.deferred[0]) || now < s.jobs[s.deferred[0]].deferTime) {
      var id := s.deferred[0];
      EditChangeSent(s, Undeferred(s, id), id, Pending, None, false, q);
      ReleasedFirst(s, id);
      SentJob(s, Released(s, id), id);
      hide ChangeJobState, SentCounted, BaseInv;
      ReleaseSent(Released(s, id), now, q);
    }
  }

  lemma ReportSentBoth(s: Server, e: Event, q: QueueId)
    requires TableInv(s) && SentCounted(s, q) && SentArePending(s) && (e.StartedMsg? || e.CompletedMsg?)
    ensures SentCounted(Apply(s, e), q) && SentArePending(Apply(s, e))
  {
    hide ChangeJobState, SentCounted, TableInv;
    if Known(s, e.id) {
      var s1 := if e.StartedMsg? then s else NeedsReturned(s, e.id);
      var to := if e.StartedMsg? then Running else FinalState(e.failed);
      ReportSent(s, s1, e.id, to, q);
      ChangeShape(s1, e.id, to, None, true);
      SentJob(s, Apply(s, e), e.id);
    }
  }

  lemma {:induction false} UnknownSent(s: Server, list: seq<JobId>, a: AgentId, q: QueueId)
    requires TableInv(s) && SentCounted(s, q) && SentArePending(s)
    ensures SentCounted(UnknownLoop(s, list, a), q) && SentArePending(UnknownLoop(s, list, a))
    decreases list
  {
    hide ChangeJobState, SentCounted, TableInv;
    if list != [] {
      var id := list[0];
      if RunsOn(s, id, a) {
        var s1 := FlagsCleared(s, id);
        EditChangeSent(s, s1, id, Unknown, None, true, q);
        EditsTable(s, s1, id);
        ChangeKeepsTable(s1, id, Unknown, None, true);
        ChangeShape(s1, id, Unknown, None, true);
        SentJob(s, UnknownOne(s, id), id);
        UnknownSent(UnknownOne(s, id), list[1..], a, q);
      } else {
        UnknownSent(s, list[1..], a, q);
      }
    }
  }

  lemma StartSent(s: Server, id: JobId, q: QueueId)
    requires TableInv(s) && SentCounted(s, q) && SentArePending(s) && Startable(s, Some(id))
    ensures SentCounted(Start(s, id), q) && SentArePending(Start(s, id))
  {
    var j := s.jobs[id].(started := true);
    SumUpdate(s.order, s.jobs, id, j, Sent());
    SumUpdate(s.order, s.jobs, id, j, SentIn(q));
  }

  lemma {:induction false} PassSent(s: Server, i: nat, quota: int, q: QueueId)
    requires BaseInv(s) && SentCounted(s, q) && SentArePending(s)
    ensures SentCounted(PassFrom(s, i, quota), q) && SentArePending(PassFrom(s, i, quota))
    decreases |s.pool| - i
  {
    if i < |s.pool| {
      if Startable(s, s.pool[i]) {
        StartFacts(s, s.pool[i]);
        StartBase(s, s.pool[i].value);
        StartSent(s, s.pool[i].value, q);
        hide Start, Startable, BaseInv, Known, SentCounted, SentArePending;
        if quota > 1 { PassSent(Start(s, s.pool[i].value), i + 1, quota - 1, q); }
      } else {
        hide Start, Startable, BaseInv, Known, SentCounted, SentArePending;
        PassSent(s, i + 1, quota, q);
      }
    }
  }

  lemma SameSent(s: Server, t: Server, q: QueueId)
    requires SentCounted(s, q) && SentArePending(s) && t.jobs == s.jobs && t.order == s.order && t.stats == s.stats && t.qstats == s.qstats
    ensures SentCounted(t, q) && SentArePending(t)
  {
  }

  lemma ScheduleSent(s: Server, q: QueueId)
    requires BaseInv(s) && SentCounted(s, q) && SentArePending(s)
    ensures SentCounted(CheckJobs(s), q) && SentArePending(CheckJobs(s))
  {
    hide PassFrom, GeneratePool, BaseInv, SentCounted, SentArePending;
    var s1 := if s.recalc then GeneratePool(s) else s;
    if s.recalc { GenerateShape(s); }
    SameSent(s, s1, q);
    QueuesBase(s, s1);
    PassSent(s1, 0, Quota(s1), q);
  }

  lemma StepSent(s: Server, e: Event, q: QueueId)
    requires BaseInv(s) && SentCounted(s, q) && SentArePending(s) && !e.ReconMsg?
    ensures SentCounted(Apply(s, e), q) && SentArePending(Apply(s, e))
  {
    assert TableInv(s);
    hide BaseInv, SentCounted, SentArePending, TableInv, AddJob, ModJob, DeleteJob, SignalUnknown, CleanupJob, ReleaseLoop, CheckJobs,
         JobStarted, JobCompleted, UnknownLoop;
    if e.Add? { AddSent(s, e.id, e.request, q); }
    else if e.Cleanup? { CleanupSent(s, e.id, q); }
    else if e.ReleaseTimer? { ReleaseSent(s, e.now, q); }
    else if e.ScheduleTimer? { ScheduleSent(s, q); }
    else {
      hide Apply;
      if e.Marks? { MarksSent(s, e, q); }
      else if e.AgentGone? { GoneSent(s, e, q); }
      else if e.StartedMsg? || e.CompletedMsg? { ReportSentBoth(s, e, q); }
      else if e.ChangeQueue? || e.ChangeResource? || e.LoginMsg? { TablesSent(s, e, q); }
      else { UserSent(s, e, q); }
    }
  }

  lemma GoneSent(s: Server, e: Event, q: QueueId)
    requires TableInv(s) && SentCounted(s, q) && SentArePending(s) && e.AgentGone?
    ensures SentCounted(Apply(s, e), q) && SentArePending(Apply(s, e))
  {
    UnknownSent(s, s.order, e.a, q);
    hide UnknownLoop, SentCounted, SentArePending, TableInv;
    SameSent(UnknownLoop(s, s.order, e.a), Apply(s, e), q);
  }

  lemma TablesSent(s: Server, e: Event, q: QueueId)
    requires SentCounted(s, q) && SentArePending(s) && (e.ChangeQueue? || e.ChangeResource? || e.LoginMsg?)
    ensures SentCounted(Apply(s, e), q) && SentArePending(Apply(s, e))
  {
    hide SentCounted, SentArePending;
    SameSent(s, Apply(s, e), q);
  }

  lemma MarksSent(s: Server, e: Event, q: QueueId)
    requires TableInv(s) && SentCounted(s, q) && SentArePending(s) && e.Marks?
    ensures SentCounted(Apply(s, e), q) && SentArePending(Apply(s, e))
  {
    if e.id in s.jobs { EditsSent(s, Apply(s, e), e.id, q); }
  }

  // -------------------------------------------------------------------------
  // All runs
  // -------------------------------------------------------------------------

  lemma {:induction false} RunWithinLimits(s: Server, events: seq<Event>, q: QueueId)
    requires BaseInv(s) && LimitedRun(s, events) && WithinLimits(s, q) && SentCounted(s, q) && SentArePending(s)
    ensures WithinLimits(Run(s, events), q) && SentCounted(Run(s, events), q)
    decreases events
  {
    hide BaseInv, WithinLimits, SentCounted, SentArePending, Apply, MessageFits;
    if events != [] {
      StepWithinLimits(s, events[0], q);
      StepSent(s, events[0], q);
      StepBase(s, events[0]);
      RunWithinLimits(Apply(s, events[0]), events[1..], q);
    }
  }

  // In every run without recon messages and without lowered limits, no queue runs and awaits more
  // than its limit, the system no more than one above its own, and every start that is unanswered is
  // counted.
  lemma LimitsInAllRuns(s: Server, events: seq<Event>, q: QueueId)
    requires Initial(s) && LimitedRun(s, events) && (q in s.queues ==> s.queues[q].limit >= 0)
    requires s.maxRun >= 0 || s.maxRun == UNLIMITED_JOBS
    ensures var t := Run(s, events);
            && (q in t.queues && q in t.qstats ==> t.qstats[q].Get(Running) + t.qstats[q].startPending <= t.queues[q].limit)
            && (t.maxRun != UNLIMITED_JOBS ==> t.stats.Get(Running) + t.stats.startPending <= t.maxRun + 1)
            && (q in t.qstats ==> Sum(t.order, t.jobs, SentIn(q)) <= t.qstats[q].startPending)
            && Sum(t.order, t.jobs, Sent()) <= t.stats.startPending
  {
    InitialBase(s);
    RunWithinLimits(s, events, q);
  }

  // -------------------------------------------------------------------------
  // Where the bounds are not exact
  // -------------------------------------------------------------------------

  predicate SentExact(s: Server) {
    Sum(s.order, s.jobs, Sent()) == s.stats.startPending
  }

  // Losing the agent of a job whose start is unanswered leaves that start counted for good.
  lemma UnknownKeepsSentIff(s: Server, id: JobId)
    requires TableInv(s) && Known(s, id) && SentExact(s)
    ensures SentExact(UnknownOne(s, id)) <==> !s.jobs[id].started
  {
    var s1 := FlagsCleared(s, id);
    ChangeCounts(s1, id, Unknown, None, true);
    ChangeShape(s1, id, Unknown, None, true);
    ServerLoad(s.stats, s.jobs[id].state, Unknown, false);
    hide ChangeJobState, Entered, Left, Recount, Load;
    var j := Changed(s1.jobs[id], Unknown, None, true);
    SumUpdate(s.order, s.jobs, id, j, Sent());
    assert UnknownOne(s, id).jobs == s.jobs[id := j];
  }

  // A job that completes well before its start was reported leaves that start counted for good.
  lemma CompletionKeepsSentIff(s: Server, id: JobId, failed: bool)
    requires TableInv(s) && Known(s, id) && SentExact(s) && !s.jobs[id].deleted && SentIsPending(s.jobs[id])
    ensures SentExact(JobCompleted(s, id, failed)) <==> !s.jobs[id].started || failed
  {
    hide ChangeJobState, Entered, Left, Recount, Load, Sum, TableInv, Deallocate, Sent, SentIn;
    var s1 := NeedsReturned(s, id);
    ChangeCounts(s1, id, FinalState(failed), None, true);
    ChangeShape(s1, id, FinalState(failed), None, true);
    ServerLoad(s.stats, s.jobs[id].state, FinalState(failed), s.jobs[id].started);
    var j := Changed(s.jobs[id], FinalState(failed), None, true).(started := false);
    AnsweredDrops(s, id, j, 0);
    assert JobCompleted(s, id, failed).jobs == s.jobs[id := j];
  }

  // A recon that reports a job as alive keeps its queue within the limit if and only if the job was
  // already running or sent, or the queue had room.
  lemma ReconKeepsLimitIff(s: Server, id: JobId)
    requires Known(s, id) && WithinLimits(s, s.jobs[id].queue)
    ensures var q := s.jobs[id].queue; var t := ReconOne(s, Alive(id));
            && q in t.qstats && q in t.queues
            && (Load(t.qstats[q]) <= t.queues[q].limit
                <==> s.jobs[id].state == Running || s.jobs[id].started || Load(s.qstats[q]) < s.queues[q].limit)
  {
    RunningLoad(s, id, false);
    hide ChangeJobState;
  }

  // So does a start report.
  lemma StartReportKeepsLimitIff(s: Server, id: JobId)
    requires Known(s, id) && WithinLimits(s, s.jobs[id].queue)
    ensures var q := s.jobs[id].queue; var t := JobStarted(s, id);
            && q in t.qstats && q in t.queues
            && (Load(t.qstats[q]) <= t.queues[q].limit
                <==> s.jobs[id].state == Running || s.jobs[id].started || Load(s.qstats[q]) < s.queues[q].limit)
  {
    RunningLoad(s, id, true);
    ChangeShape(s, id, Running, None, true);
    hide ChangeJobState;
  }

  lemma RunningLoad(s: Server, id: JobId, dirty: bool)
    requires Known(s, id) && WithinLimits(s, s.jobs[id].queue)
    ensures var q := s.jobs[id].queue; var t := ChangeJobState(s, id, Running, None, dirty);
            && q in t.qstats && q in t.queues
            && (Load(t.qstats[q]) <= t.queues[q].limit
                <==> s.jobs[id].state == Running || s.jobs[id].started || Load(s.qstats[q]) < s.queues[q].limit)
  {
    var j := s.jobs[id];
    RecountLoad(s.qstats, j.queue, j.state, j.queue, Running, j.started, j.queue);
    ChangeCounts(s, id, Running, None, dirty);
    ChangeShape(s, id, Running, None, dirty);
    hide ChangeJobState, Entered, Left, Recount, Load;
  }
}
