/**
 The count of deleted jobs that the search for job ids relies on: it is the number of jobs in the table that
 are marked deleted, until an agent is lost that a deleted job was sent to.
 */
module SchedDeleted {
  import opened Options
  import opened JobStates
  import opened SchedState
  import opened SchedSteps
  import opened SchedRun
  import opened SchedView

  ghost function Deleted(s: Server): set<JobId> {
    set id | id in s.jobs && s.jobs[id].deleted
  }

  ghost predicate CountIsRight(s: Server) {
    s.deletedJobs == |Deleted(s)|
  }

  // A step that marks, unmarks and removes no job.
  predicate SameMarks(s: Server, t: Server) {
    && t.deletedJobs == s.deletedJobs && t.jobs.Keys == s.jobs.Keys
    && forall id :: id in s.jobs ==> t.jobs[id].deleted == s.jobs[id].deleted
  }

  lemma SameMarksCount(s: Server, t: Server)
    requires SameMarks(s, t)
    ensures CountIsRight(s) <==> CountIsRight(t)
  {
    assert Deleted(t) == Deleted(s);
  }

  lemma ChangeMarks(s: Server, s1: Server, id: JobId, to: JobState, q: Option<QueueId>, dirty: bool)
    requires Known(s1, id) && id in s.jobs && SameMarks(s, s1) && (q.Some? ==> q.value in s1.qstats)
    ensures SameMarks(s, ChangeJobState(s1, id, to, q, dirty))
  {
    ChangeShape(s1, id, to, q, dirty);
    hide ChangeJobState;
  }

  // -------------------------------------------------------------------------
  // Steps that leave the marks alone
  // -------------------------------------------------------------------------

  lemma ModifyMarks(s: Server, id: JobId, m: Mod)
    ensures SameMarks(s, ModJob(s, id, m))
  {
    if !ModRefused(s, id, m) {
      hide ChangeJobState, ModTarget, ModDirty, ModList, Deallocate;
      ChangeMarks(s, ModEdited(s, id, m), id, ModTarget(s.jobs[id], m), m.queue, ModDirty(s.jobs[id], m));
    }
  }

  lemma SignalMarks(s: Server, id: JobId)
    ensures SameMarks(s, SignalUnknown(s, id))
  {
    hide ChangeJobState, Deallocate;
    if Known(s, id) { ChangeMarks(s, NeedsReturned(s, id), id, Exited, None, true); }
  }

  lemma StartedMarks(s: Server, id: JobId)
    ensures SameMarks(s, JobStarted(s, id))
  {
    hide ChangeJobState;
    if Known(s, id) { ChangeMarks(s, s, id, Running, None, true); }
  }

  lemma CompletedMarks(s: Server, id: JobId, failed: bool)
    ensures SameMarks(s, JobCompleted(s, id, failed))
  {
    hide ChangeJobState, Deallocate;
    if Known(s, id) { ChangeMarks(s, NeedsReturned(s, id), id, FinalState(failed), None, true); }
  }

  lemma {:induction false} ReconMarks(s: Server, items: seq<ReconItem>)
    ensures SameMarks(s, ReconLoop(s, items))
    decreases items
  {
    if items != [] {
      var item := items[0];
      if Known(s, item.id) && !item.NotKnown? {
        ChangeMarks(s, s, item.id, if item.Ended? then FinalState(item.failed) else Running, None, item.Ended?);
      }
      hide ChangeJobState;
      ReconMarks(ReconOne(s, item), items[1..]);
      hide ReconOne;
    }
  }

  lemma {:induction false} ReleaseMarks(s: Server, list: seq<JobId>, now: int)
    ensures SameMarks(s, ReleaseLoop(s, list, now))
    decreases list
  {
    if !(list == [] || !Known(s, list[0]) || now < s.jobs[list[0]].deferTime) {
      ChangeMarks(s, Undeferred(s, list[0]), list[0], Pending, None, false);
      hide ChangeJobState;
      ReleaseMarks(Released(s, list[0]), list[1..], now);
      hide Released;
    }
  }

  lemma {:induction false} PassMarks(s: Server, i: nat, quota: int)
    ensures SameMarks(s, PassFrom(s, i, quota))
    decreases |s.pool| - i
  {
    if i < |s.pool| {
      if Startable(s, s.pool[i]) {
        StartFacts(s, s.pool[i]);
        assert SameMarks(s, Start(s, s.pool[i].value));
        hide Startable, Start;
        if quota > 1 { PassMarks(Start(s, s.pool[i].value), i + 1, quota - 1); }
      } else {
        PassMarks(s, i + 1, quota);
      }
    }
  }

  lemma ScheduleMarks(s: Server)
    ensures SameMarks(s, CheckJobs(s))
  {
    hide PassFrom, GeneratePool;
    var s1 := if s.recalc then GeneratePool(s) else s;
    if s.recalc { GenerateShape(s); }
    PassMarks(s1, 0, Quota(s1));
  }

  lemma StepMarks(s: Server, e: Event)
    requires !e.Add? && !e.Delete? && !e.Cleanup? && !e.AgentGone?
    ensures SameMarks(s, Apply(s, e))
  {
    hide SameMarks, ModJob, SignalUnknown, JobStarted, JobCompleted, ReconLoop, ReleaseLoop, CheckJobs, SetMarks;
    if e.Modify? { ModifyMarks(s, e.id, e.mod); }
    else if e.Signal? { SignalMarks(s, e.id); }
    else if e.StartedMsg? { StartedMarks(s, e.id); }
    else if e.CompletedMsg? { CompletedMarks(s, e.id, e.failed); }
    else if e.Marks? { SaverMarks(s, e.id, e.dirty, e.flushing); }
    else if e.ReconMsg? { ReconMarks(s, e.items); OtherFields(ReconLoop(s, e.items), s, Apply(s, e)); }
    else if e.ReleaseTimer? { ReleaseMarks(s, s.deferred, e.now); }
    else if e.ScheduleTimer? { ScheduleMarks(s); }
    else { PlainMarks(s, e); }
  }

  lemma OtherFields(t: Server, s: Server, u: Server)
    requires SameMarks(s, t) && u.jobs == t.jobs && u.deletedJobs == t.deletedJobs
    ensures SameMarks(s, u)
  {
  }

  lemma PlainMarks(s: Server, e: Event)
    requires e.ChangeQueue? || e.ChangeResource? || e.LoginMsg?
    ensures SameMarks(s, Apply(s, e))
  {
    assert SameMarks(s, s);
    OtherFields(s, s, Apply(s, e));
  }

  lemma SaverMarks(s: Server, id: JobId, dirty: bool, flushing: bool)
    ensures SameMarks(s, SetMarks(s, id, dirty, flushing))
  {
    if id in s.jobs {
      var t := SetMarks(s, id, dirty, flushing);
      assert t.jobs == s.jobs[id := t.jobs[id]] && t.jobs[id].deleted == s.jobs[id].deleted && t.deletedJobs == s.deletedJobs;
      hide SetMarks;
      assert t.jobs.Keys == s.jobs.Keys;
    }
  }

  // -------------------------------------------------------------------------
  // The others
  // -------------------------------------------------------------------------

  lemma AddCount(s: Server, id: JobId, r: Request)
    ensures CountIsRight(s) <==> CountIsRight(AddJob(s, id, r))
  {
    var t := AddJob(s, id, r);
    SubmitEffect(s, id, r);
    AddKeepsCount(s, id, r);
    hide AddJob;
    assert Deleted(t) == Deleted(s);
  }

  lemma AddKeepsCount(s: Server, id: JobId, r: Request)
    ensures AddJob(s, id, r).deletedJobs == s.deletedJobs
  {
    if !AddRefused(s, id, r) { ChangeShape(AddEntered(s, id, r), id, AddTarget(r), None, true); }
    hide ChangeJobState;
  }

  lemma DeleteCount(s: Server, id: JobId)
    requires BaseInv(s)
    ensures CountIsRight(s) <==> CountIsRight(DeleteJob(s, id))
  {
    hide DeleteJob, BaseInv;
    var t := DeleteJob(s, id);
    DeleteEffect(s, id);
    if id in s.jobs && !s.jobs[id].deleted { assert Deleted(t) == Deleted(s) + {id}; }
  }

  lemma CleanupCount(s: Server, id: JobId)
    ensures CountIsRight(s) <==> CountIsRight(CleanupJob(s, id))
  {
    var t := CleanupJob(s, id);
    CleanupEffect(s, id);
    hide CleanupJob;
    if id in s.jobs && id !in t.jobs { assert Deleted(t) == Deleted(s) - {id}; } else { assert Deleted(t) == Deleted(s); }
  }

  // A deleted job that was sent to the agent.
  predicate DeletedWith(s: Server, a: AgentId) {
    exists id :: id in s.jobs && WithAgent(s, id, a) && s.jobs[id].deleted
  }

  lemma {:induction false} UnknownKeepsCount(s: Server, list: seq<JobId>, a: AgentId)
    ensures UnknownLoop(s, list, a).deletedJobs == s.deletedJobs && UnknownLoop(s, list, a).jobs.Keys == s.jobs.Keys
    decreases list
  {
    if list != [] {
      if RunsOn(s, list[0], a) { ChangeShape(FlagsCleared(s, list[0]), list[0], Unknown, None, true); }
      hide ChangeJobState;
      UnknownKeepsCount(if RunsOn(s, list[0], a) then UnknownOne(s, list[0]) else s, list[1..], a);
    }
  }

  lemma GoneCountIff(s: Server, a: AgentId)
    requires TableInv(s) && CountIsRight(s)
    ensures CountIsRight(Disconnect(s, a)) <==> !DeletedWith(s, a)
  {
    var t := Disconnect(s, a);
    UnknownKeepsCount(s, s.order, a);
    assert t.deletedJobs == s.deletedJobs;
    forall id | id in s.jobs
      ensures id in t.jobs && (t.jobs[id].deleted <==> s.jobs[id].deleted && !WithAgent(s, id, a))
    {
      AgentGoneEffect(s, a, id);
    }
    assert t.jobs.Keys == s.jobs.Keys;
    hide Disconnect, TableInv, WithAgent;
    if DeletedWith(s, a) {
      var id :| id in s.jobs && WithAgent(s, id, a) && s.jobs[id].deleted;
      Fewer(Deleted(t), Deleted(s), id);
    } else {
      assert Deleted(t) == Deleted(s);
    }
  }

  lemma Fewer(a: set<JobId>, b: set<JobId>, x: JobId)
    requires a <= b && x in b && x !in a
    ensures |a| < |b|
  {
    assert a <= b - {x};
    var rest := (b - {x}) - a;
    assert b - {x} == a + rest;
  }

  // A step keeps the count right if and only if it is not the loss of an agent that a deleted job was sent to.
  lemma StepKeepsCountIff(s: Server, e: Event)
    requires BaseInv(s) && CountIsRight(s)
    ensures CountIsRight(Apply(s, e)) <==> !(e.AgentGone? && DeletedWith(s, e.a))
  {
    hide CountIsRight, AddJob, DeleteJob, CleanupJob, Disconnect, DeletedWith;
    if e.Add? { AddCount(s, e.id, e.request); }
    else if e.Delete? { DeleteCount(s, e.id); }
    else if e.Cleanup? { CleanupCount(s, e.id); }
    else if e.AgentGone? { GoneCountIff(s, e.a); }
    else { StepMarks(s, e); SameMarksCount(s, Apply(s, e)); hide Apply; }
  }

  predicate NeverLost(s: Server, events: seq<Event>)
    decreases events
  {
    events == [] || (!(events[0].AgentGone? && DeletedWith(s, events[0].a)) && NeverLost(Apply(s, events[0]), events[1..]))
  }

  ghost predicate RightThroughout(s: Server, events: seq<Event>)
    decreases events
  {
    CountIsRight(s) && (events == [] || RightThroughout(Apply(s, events[0]), events[1..]))
  }

  // Over all runs: the count is the number of deleted jobs throughout if and only if no agent is lost that a
  // deleted job was sent to.
  lemma {:induction false} CountInAllRunsIff(s: Server, events: seq<Event>)
    requires BaseInv(s) && CountIsRight(s) && IsRun(s, events)
    ensures RightThroughout(s, events) <==> NeverLost(s, events)
    decreases events
  {
    if events != [] {
      StepKeepsCountIff(s, events[0]);
      StepBase(s, events[0]);
      hide BaseInv, Apply, MessageFits, CountIsRight, DeletedWith;
      if CountIsRight(Apply(s, events[0])) { CountInAllRunsIff(Apply(s, events[0]), events[1..]); }
      RightNow(Apply(s, events[0]), events[1..]);
    }
  }

  lemma RightNow(s: Server, events: seq<Event>)
    ensures RightThroughout(s, events) ==> CountIsRight(s)
  {
  }

  lemma InitialCount(s: Server)
    requires Initial(s)
    ensures CountIsRight(s)
  {
    assert Deleted(s) == {};
  }
}
