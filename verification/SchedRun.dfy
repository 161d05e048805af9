/**
 Runs of the daemon: which step may come when, and what any run keeps of the tables themselves.
 */
module SchedRun {
  import opened Options
  import opened JobStates
  import opened Sequences
  import opened SchedState
  import opened SchedSteps
  import opened SchedDefer

  datatype Event =
    | Add(id: JobId, request: Request)
    | Modify(id: JobId, mod: Mod)
    | Delete(id: JobId)
    | Signal(id: JobId)
    | ChangeQueue(q: QueueId, limit: int, started: bool, priority: int)
    | ChangeResource(r: ResId, count: int)
    | Cleanup(id: JobId)
    | Marks(id: JobId, dirty: bool, flushing: bool)
    | ReleaseTimer(now: int)
    | ScheduleTimer
    | StartedMsg(id: JobId)
    | CompletedMsg(id: JobId, failed: bool)
    | ReconMsg(a: AgentId, items: seq<ReconItem>)
    | LoginMsg(a: AgentId, hosts: set<QueueId>)
    | AgentGone(a: AgentId)

  function Apply(s: Server, e: Event): Server {
    match e
    case Add(id, r) => AddJob(s, id, r)
    case Modify(id, m) => ModJob(s, id, m)
    case Delete(id) => DeleteJob(s, id)
    case Signal(id) => SignalUnknown(s, id)
    case ChangeQueue(q, limit, started, priority) => ModQueue(s, q, limit, started, priority)
    case ChangeResource(r, count) => ModResource(s, r, count)
    case Cleanup(id) => CleanupJob(s, id)
    case Marks(id, dirty, flushing) => SetMarks(s, id, dirty, flushing)
    case ReleaseTimer(now) => ReleaseDeferred(s, now)
    case ScheduleTimer => CheckJobs(s)
    case StartedMsg(id) => JobStarted(s, id)
    case CompletedMsg(id, failed) => JobCompleted(s, id, failed)
    case ReconMsg(a, items) => Recon(s, a, items)
    case LoginMsg(a, hosts) => Login(s, a, hosts)
    case AgentGone(a) => Disconnect(s, a)
  }

  // A job that has been sent to an agent and not been reported finished.
  predicate Holds(j: Job) {
    j.started || j.state == Running || j.state == Unknown
  }

  // What is assumed of the messages of agents: no start report, and no recon item that reports a job
  // alive, names one that is deleted or carries a deferral time. Any job may be reported as ended.
  predicate MessageFits(s: Server, e: Event) {
    match e
    case StartedMsg(id) => MayRun(s, id)
    case ReconMsg(_, items) => forall i :: 0 <= i < |items| ==> ReconFits(s, items[i])
    case _ => true
  }

  predicate ReconFits(s: Server, item: ReconItem) {
    item.Alive? ==> MayRun(s, item.id)
  }

  predicate MayRun(s: Server, id: JobId) {
    id in s.jobs ==> !s.jobs[id].deleted && s.jobs[id].deferTime == 0
  }

  predicate IsRun(s: Server, events: seq<Event>)
    decreases events
  {
    events == [] || (MessageFits(s, events[0]) && IsRun(Apply(s, events[0]), events[1..]))
  }

  function Run(s: Server, events: seq<Event>): Server
    decreases events
  {
    if events == [] then s else Run(Apply(s, events[0]), events[1..])
  }

  // A daemon with queues, resources and agents but no jobs yet.
  predicate Initial(s: Server) {
    && s.jobs == map[] && s.order == [] && s.deferred == [] && s.pool == [] && s.deletedJobs == 0 && s.poolSize >= 0
    && s.stats == Stats(map[], 0) && s.qstats.Keys == s.queues.Keys
    && (forall q :: q in s.qstats ==> s.qstats[q] == Stats(map[], 0))
    && (forall r :: r in s.resources ==> s.resources[r].inUse == 0 && s.resources[r].count >= 0)
  }

  // -------------------------------------------------------------------------
  // The table
  // -------------------------------------------------------------------------

  // A deleted job is in no state, or an agent has reported it as ended since. A deferred job carries a
  // time, a job that carries one is deferred or has been reported as ended, and one that an agent holds
  // carries none.
  predicate JobOk(j: Job) {
    && (j.deleted ==> j.state == NoState || Over(j.state))
    && (!j.deleted && j.state == Deferred ==> j.deferTime != 0)
    && (!j.deleted && j.deferTime != 0 ==> j.state == Deferred || Over(j.state))
    && (Holds(j) ==> j.deferTime == 0)
  }

  predicate Over(st: JobState) {
    st == Completed || st == Exited
  }

  predicate JobsOk(s: Server) {
    forall id :: id in s.jobs ==> JobOk(s.jobs[id])
  }

  ghost predicate BaseInv(s: Server) {
    TableInv(s) && JobsOk(s) && ListOk(s.deferred, s.jobs)
  }

  // What every step does before and after it changes a state: rewrite one job, keeping its queue and
  // state, and touch nothing the counters are made of.
  predicate Edits(s: Server, s1: Server, id: JobId) {
    && id in s.jobs && id in s1.jobs
    && s1.order == s.order && s1.queues == s.queues && s1.qstats == s.qstats && s1.stats == s.stats
    && s1.jobs == s.jobs[id := s1.jobs[id]]
    && s1.jobs[id].queue == s.jobs[id].queue && s1.jobs[id].state == s.jobs[id].state
  }

  lemma EditsTable(s: Server, s1: Server, id: JobId)
    requires TableInv(s) && Edits(s, s1, id)
    ensures TableInv(s1)
  {
  }

  lemma EditsBase(s: Server, s1: Server, id: JobId)
    requires BaseInv(s) && Edits(s, s1, id) && JobOk(s1.jobs[id]) && ListOk(s1.deferred, s1.jobs)
    ensures BaseInv(s1)
  {
    EditsTable(s, s1, id);
  }

  lemma ChangeKeepsTable(s: Server, id: JobId, st: JobState, q: Option<QueueId>, dirty: bool)
    requires TableInv(s) && Known(s, id) && (q.Some? ==> q.value in s.queues && q.value in s.qstats)
    ensures TableInv(ChangeJobState(s, id, st, q, dirty))
  {
    ChangeShape(s, id, st, q, dirty);
    hide ChangeJobState;
  }

  lemma ChangeBase(s: Server, id: JobId, st: JobState, q: Option<QueueId>, dirty: bool)
    requires TableInv(s) && Known(s, id) && (q.Some? ==> q.value in s.queues && q.value in s.qstats)
    requires forall x :: x in s.jobs && x != id ==> JobOk(s.jobs[x])
    requires JobOk(Changed(s.jobs[id], st, q, dirty)) && ListOk(s.deferred, s.jobs)
    ensures BaseInv(ChangeJobState(s, id, st, q, dirty))
  {
    ChangeShape(s, id, st, q, dirty);
    ChangeKeepsTable(s, id, st, q, dirty);
    SameListed(s.deferred, s.jobs, id, Changed(s.jobs[id], st, q, dirty));
    hide ChangeJobState, ListOk, TableInv;
  }

  // An edit followed by a change of state.
  lemma EditChangeBase(s: Server, s1: Server, id: JobId, st: JobState, q: Option<QueueId>, dirty: bool)
    requires BaseInv(s) && Edits(s, s1, id) && (q.Some? ==> q.value in s.queues && q.value in s.qstats)
    requires JobOk(Changed(s1.jobs[id], st, q, dirty)) && ListOk(s1.deferred, s1.jobs)
    ensures Known(s1, id) && BaseInv(ChangeJobState(s1, id, st, q, dirty)) && id in ChangeJobState(s1, id, st, q, dirty).jobs
  {
    EditsTable(s, s1, id);
    ChangeBase(s1, id, st, q, dirty);
    ChangeShape(s1, id, st, q, dirty);
    hide ChangeJobState, ListOk;
  }

  lemma AddEnteredOk(s: Server, id: JobId, r: Request)
    requires BaseInv(s) && !AddRefused(s, id, r)
    ensures var s1 := AddEntered(s, id, r);
            && TableInv(s1) && Known(s1, id) && ListOk(s1.deferred, s1.jobs)
            && s1.jobs[id] == Job(r.queue, NoState, false, false, false, false, r.deferTime, r.priority, r.needs)
            && forall x :: x in s1.jobs && x != id ==> JobOk(s1.jobs[x])
  {
    AddEnteredList(s, id, r);
    hide ListOk;
  }

  lemma AddEnteredList(s: Server, id: JobId, r: Request)
    requires ListOk(s.deferred, s.jobs) && id !in s.jobs
    ensures ListOk(AddEntered(s, id, r).deferred, AddEntered(s, id, r).jobs)
  {
    if r.deferTime != 0 { InsertListed(s.deferred, s.jobs, id, AddEntered(s, id, r).jobs[id]); }
  }

  lemma AddBase(s: Server, id: JobId, r: Request)
    requires BaseInv(s)
    ensures BaseInv(AddJob(s, id, r))
  {
    hide ChangeJobState;
    if !AddRefused(s, id, r) {
      var s1 := AddEntered(s, id, r);
      AddEnteredOk(s, id, r);
      hide ListOk, AddEntered, TableInv;
      ChangeBase(s1, id, AddTarget(r), None, true);
    }
  }

  lemma ModBase(s: Server, id: JobId, m: Mod)
    requires BaseInv(s)
    ensures BaseInv(ModJob(s, id, m))
  {
    hide ChangeJobState, ListOk;
    if !ModRefused(s, id, m) {
      ModListOk(s.deferred, s.jobs, id, ModEdited(s, id, m).jobs[id], m.deferTime);
      EditChangeBase(s, ModEdited(s, id, m), id, ModTarget(s.jobs[id], m), m.queue, ModDirty(s.jobs[id], m));
    }
  }

  lemma DeleteBase(s: Server, id: JobId)
    requires BaseInv(s)
    ensures BaseInv(DeleteJob(s, id))
  {
    hide ChangeJobState;
    if Known(s, id) && !s.jobs[id].deleted {
      DeleteMarkedList(s, id);
      hide ListOk;
      EditChangeBase(s, DeleteMarked(s, id), id, NoState, None, false);
    }
  }

  lemma DeleteMarkedList(s: Server, id: JobId)
    requires ListOk(s.deferred, s.jobs) && id in s.jobs && !s.jobs[id].deleted
    ensures ListOk(DeleteMarked(s, id).deferred, DeleteMarked(s, id).jobs)
  {
    RemoveListed(s.deferred, s.jobs, id, s.jobs[id].(deleted := true));
    if s.jobs[id].deferTime == 0 { WithoutAbsent(s.deferred, id); }
  }

  lemma SignalBase(s: Server, id: JobId)
    requires BaseInv(s)
    ensures BaseInv(SignalUnknown(s, id))
  {
    hide ChangeJobState;
    if Known(s, id) && !s.jobs[id].deleted && s.jobs[id].state == Unknown {
      EditChangeBase(s, NeedsReturned(s, id), id, Exited, None, true);
    }
  }

  lemma CleanupBase(s: Server, id: JobId)
    requires BaseInv(s)
    ensures BaseInv(CleanupJob(s, id))
  {
    WithoutMembers(s.order, id);
  }

  lemma MarksBase(s: Server, id: JobId, dirty: bool, flushing: bool)
    requires BaseInv(s)
    ensures BaseInv(SetMarks(s, id, dirty, flushing))
  {
    if id in s.jobs {
      var t := SetMarks(s, id, dirty, flushing);
      SameListed(s.deferred, s.jobs, id, t.jobs[id]);
      EditsBase(s, t, id);
    }
  }

  lemma ReleasedBase(s: Server, id: JobId)
    requires BaseInv(s) && id in s.deferred
    ensures Known(s, id) && BaseInv(Released(s, id)) && Released(s, id).deferred == Without(s.deferred, id)
  {
    assert Known(s, id) && Listed(s.jobs[id]);
    RemoveListed(s.deferred, s.jobs, id, s.jobs[id].(deferTime := 0));
    EditChangeBase(s, Undeferred(s, id), id, Pending, None, false);
    ChangeShape(Undeferred(s, id), id, Pending, None, false);
    hide ChangeJobState, ListOk;
  }

  lemma {:induction false} ReleaseLoopBase(s: Server, now: int)
    requires BaseInv(s)
    ensures BaseInv(ReleaseLoop(s, s.deferred, now))
    decreases |s.deferred|
  {
    if !(s.deferred == [] || !Known(s, s.deferred[0]) || now < s.jobs[s.deferred[0]].deferTime) {
      var id := s.deferred[0];
      ReleasedFirst(s, id);
      ReleaseLoopBase(Released(s, id), now);
    }
  }

  // A report about a job: its state changes, then its flags.
  lemma StartedBase(s: Server, id: JobId)
    requires BaseInv(s) && MessageFits(s, StartedMsg(id))
    ensures BaseInv(JobStarted(s, id))
  {
    hide ChangeJobState;
    if Known(s, id) {
      EditChangeBase(s, s, id, Running, None, true);
      ClearStartedBase(ChangeJobState(s, id, Running, None, true), id);
    }
  }

  lemma ClearStartedBase(s: Server, id: JobId)
    requires BaseInv(s) && id in s.jobs
    ensures BaseInv(ClearStarted(s, id))
  {
    SameListed(s.deferred, s.jobs, id, s.jobs[id].(started := false));
    hide ListOk;
    EditsBase(s, ClearStarted(s, id), id);
  }

  lemma CompletedBase(s: Server, id: JobId, failed: bool)
    requires BaseInv(s)
    ensures BaseInv(JobCompleted(s, id, failed))
  {
    hide ChangeJobState;
    if Known(s, id) {
      EditChangeBase(s, NeedsReturned(s, id), id, FinalState(failed), None, true);
      ClearStartedBase(ChangeJobState(NeedsReturned(s, id), id, FinalState(failed), None, true), id);
    }
  }

  // The assumption is exact: a start report or an alive item keeps the tables consistent if and only if
  // it meets it.
  lemma RunningKeepsTablesIff(s: Server, id: JobId)
    requires BaseInv(s)
    ensures BaseInv(JobStarted(s, id)) <==> MayRun(s, id)
    ensures BaseInv(ReconOne(s, Alive(id))) <==> MayRun(s, id)
  {
    if MayRun(s, id) {
      StartedBase(s, id);
      ReconOneBase(s, Alive(id));
    } else {
      RunningJob(s, id);
    }
  }

  lemma RunningJob(s: Server, id: JobId)
    requires TableInv(s) && id in s.jobs && !MayRun(s, id)
    ensures id in JobStarted(s, id).jobs && !JobOk(JobStarted(s, id).jobs[id])
    ensures id in ReconOne(s, Alive(id)).jobs && !JobOk(ReconOne(s, Alive(id)).jobs[id])
  {
    assert Known(s, id);
    ChangeShape(s, id, Running, None, true);
    ChangeShape(s, id, Running, None, false);
    hide ChangeJobState, TableInv;
  }

  lemma ReconOneBase(s: Server, item: ReconItem)
    requires BaseInv(s) && ReconFits(s, item)
    ensures BaseInv(ReconOne(s, item))
  {
    hide ChangeJobState;
    if Known(s, item.id) && !item.NotKnown? {
      EditChangeBase(s, s, item.id, if item.Ended? then FinalState(item.failed) else Running, None, item.Ended?);
    }
  }

  lemma ReconOneFits(s: Server, item: ReconItem, other: ReconItem)
    requires ReconFits(s, item) && ReconFits(s, other)
    ensures ReconFits(ReconOne(s, item), other)
  {
    if Known(s, item.id) && !item.NotKnown? {
      ChangeShape(s, item.id, if item.Ended? then FinalState(item.failed) else Running, None, item.Ended?);
    }
    hide ChangeJobState;
  }

  lemma {:induction false} ReconLoopBase(s: Server, items: seq<ReconItem>)
    requires BaseInv(s) && forall i :: 0 <= i < |items| ==> ReconFits(s, items[i])
    ensures BaseInv(ReconLoop(s, items))
    decreases items
  {
    hide ReconOne;
    if items != [] {
      ReconOneBase(s, items[0]);
      forall i | 0 <= i < |items[1..]| ensures ReconFits(ReconOne(s, items[0]), items[1..][i]) {
        ReconOneFits(s, items[0], items[i + 1]);
      }
      ReconLoopBase(ReconOne(s, items[0]), items[1..]);
    }
  }

  lemma UnknownOneBase(s: Server, id: JobId, a: AgentId)
    requires BaseInv(s) && RunsOn(s, id, a)
    ensures BaseInv(UnknownOne(s, id))
  {
    hide ChangeJobState;
    var s1 := FlagsCleared(s, id);
    SameListed(s.deferred, s.jobs, id, s1.jobs[id]);
    EditChangeBase(s, s1, id, Unknown, None, true);
  }

  lemma {:induction false} UnknownLoopBase(s: Server, list: seq<JobId>, a: AgentId)
    requires BaseInv(s)
    ensures BaseInv(UnknownLoop(s, list, a))
    decreases list
  {
    hide UnknownOne;
    if list != [] {
      if RunsOn(s, list[0], a) {
        UnknownOneBase(s, list[0], a);
        UnknownLoopBase(UnknownOne(s, list[0]), list[1..], a);
      } else {
        UnknownLoopBase(s, list[1..], a);
      }
    }
  }

  lemma QueuesBase(s: Server, s1: Server)
    requires BaseInv(s) && s1.queues.Keys == s.queues.Keys && s1.qstats == s.qstats
    requires s1.jobs == s.jobs && s1.order == s.order && s1.deferred == s.deferred
    ensures BaseInv(s1)
  {
  }

  lemma StartBase(s: Server, id: JobId)
    requires BaseInv(s) && Startable(s, Some(id))
    ensures BaseInv(Start(s, id))
  {
    SameListed(s.deferred, s.jobs, id, s.jobs[id].(started := true));
    hide ListOk;
    var t := Start(s, id);
    assert JobOk(t.jobs[id]) && t.qstats.Keys == s.qstats.Keys;
  }

  lemma StartFacts(s: Server, slot: Option<JobId>)
    requires Startable(s, slot)
    ensures slot.Some? && Known(s, slot.value) && Start(s, slot.value).pool == s.pool
  {
  }

  lemma {:induction false} PassBase(s: Server, i: nat, quota: int)
    requires BaseInv(s)
    ensures BaseInv(PassFrom(s, i, quota))
    decreases |s.pool| - i
  {
    hide Start, Startable, BaseInv, Known;
    if i < |s.pool| {
      if Startable(s, s.pool[i]) {
        StartFacts(s, s.pool[i]);
        StartBase(s, s.pool[i].value);
        if quota > 1 { PassBase(Start(s, s.pool[i].value), i + 1, quota - 1); }
      } else {
        PassBase(s, i + 1, quota);
      }
    }
  }

  lemma ScheduleBase(s: Server)
    requires BaseInv(s)
    ensures BaseInv(CheckJobs(s))
  {
    hide PassFrom, GeneratePool, BaseInv;
    var s1 := if s.recalc then GeneratePool(s) else s;
    if s.recalc { GenerateShape(s); }
    QueuesBase(s, s1);
    PassBase(s1, 0, Quota(s1));
  }

  lemma GenerateShape(s: Server)
    ensures var g := GeneratePool(s); g == s.(pool := g.pool, poolSize := g.poolSize, recalc := false)
  {
    hide Candidates, GrownSize;
  }

  lemma StepBase(s: Server, e: Event)
    requires BaseInv(s) && MessageFits(s, e)
    ensures BaseInv(Apply(s, e))
  {
    hide BaseInv, AddJob, ModJob, DeleteJob, SignalUnknown, CleanupJob, ReleaseLoop, CheckJobs, JobStarted, JobCompleted, SetMarks;
    match e
    case Add(id, r) => AddBase(s, id, r);
    case Modify(id, m) => ModBase(s, id, m);
    case Delete(id) => DeleteBase(s, id);
    case Signal(id) => SignalBase(s, id);
    case Cleanup(id) => CleanupBase(s, id);
    case Marks(id, dirty, flushing) => MarksBase(s, id, dirty, flushing);
    case ReleaseTimer(now) => ReleaseLoopBase(s, now);
    case ScheduleTimer => ScheduleBase(s);
    case StartedMsg(id) => StartedBase(s, id);
    case CompletedMsg(id, failed) => CompletedBase(s, id, failed);
    case _ =>
      hide Apply;
      if e.ReconMsg? || e.AgentGone? { AgentBase(s, e); } else { TablesBase(s, e); }
  }

  lemma TablesBase(s: Server, e: Event)
    requires BaseInv(s) && (e.ChangeQueue? || e.ChangeResource? || e.LoginMsg?)
    ensures BaseInv(Apply(s, e))
  {
    hide BaseInv;
    var t := Apply(s, e);
    assert t.queues.Keys == s.queues.Keys && t.qstats == s.qstats && t.jobs == s.jobs && t.order == s.order && t.deferred == s.deferred;
    hide Apply;
    QueuesBase(s, t);
  }

  lemma AgentBase(s: Server, e: Event)
    requires BaseInv(s) && MessageFits(s, e) && (e.ReconMsg? || e.AgentGone?)
    ensures BaseInv(Apply(s, e))
  {
    hide BaseInv, ReconLoop, UnknownLoop;
    var t := if e.ReconMsg? then ReconLoop(s, e.items) else UnknownLoop(s, s.order, e.a);
    if e.ReconMsg? { ReconLoopBase(s, e.items); } else { UnknownLoopBase(s, s.order, e.a); }
    QueuesBase(t, Apply(s, e));
  }

  lemma {:induction false} RunBase(s: Server, events: seq<Event>)
    requires BaseInv(s) && IsRun(s, events)
    ensures BaseInv(Run(s, events))
    decreases events
  {
    hide BaseInv, Apply;
    if events != [] {
      StepBase(s, events[0]);
      RunBase(Apply(s, events[0]), events[1..]);
    }
  }

  lemma InitialBase(s: Server)
    requires Initial(s)
    ensures BaseInv(s)
  {
  }

  // -------------------------------------------------------------------------
  // The deferred list over all runs
  // -------------------------------------------------------------------------

  // In every run the list holds exactly the jobs that carry a time and are not deleted, once each, in
  // the order of their times. Every deferred job is among them; any other has been reported as ended.
  lemma DeferredListInAllRuns(s: Server, events: seq<Event>)
    requires Initial(s) && IsRun(s, events)
    ensures var t := Run(s, events);
            && Distinct(t.deferred)
            && (forall id :: id in t.deferred <==> id in t.jobs && !t.jobs[id].deleted && t.jobs[id].deferTime != 0)
            && (forall id :: id in t.jobs && t.jobs[id].state == Deferred ==> id in t.deferred)
            && (forall id :: id in t.deferred ==> t.jobs[id].state == Deferred || Over(t.jobs[id].state))
            && (forall i, k :: 0 <= i < k < |t.deferred| ==> t.jobs[t.deferred[i]].deferTime <= t.jobs[t.deferred[k]].deferTime)
  {
    InitialBase(s);
    RunBase(s, events);
    var t := Run(s, events);
    forall id | id in t.deferred ensures t.jobs[id].state == Deferred || Over(t.jobs[id].state) {
      assert Listed(t.jobs[id]) && JobOk(t.jobs[id]);
    }
  }

  // Releasing makes pending exactly the deferred jobs whose time has come, and changes no other job.
  lemma {:induction false} ReleaseIsExact(s: Server, now: int, id: JobId)
    requires BaseInv(s) && id in s.jobs
    ensures var t := ReleaseDeferred(s, now);
            && id in t.jobs
            && t.jobs[id] == if id in s.deferred && s.jobs[id].deferTime <= now
                             then s.jobs[id].(deferTime := 0, state := Pending) else s.jobs[id]
    decreases |s.deferred|
  {
    if s.deferred != [] {
      var first := s.deferred[0];
      assert first in s.deferred && Known(s, first);
      if now >= s.jobs[first].deferTime {
        ReleasedFirst(s, first);
        hide Released, BaseInv;
        ReleaseIsExact(Released(s, first), now, id);
      } else if id in s.deferred {
        assert s.jobs[first].deferTime <= s.jobs[id].deferTime;
      }
    }
  }

  lemma ReleasedFirst(s: Server, id: JobId)
    requires BaseInv(s) && s.deferred != [] && s.deferred[0] == id
    ensures Known(s, id) && BaseInv(Released(s, id)) && Released(s, id).deferred == s.deferred[1..] && id !in s.deferred[1..]
    ensures Released(s, id).jobs == s.jobs[id := s.jobs[id].(deferTime := 0, state := Pending)]
  {
    assert id !in s.deferred[1..] && id in s.deferred;
    ReleasedBase(s, id);
    ReleasedJob(s, id);
    hide Released, BaseInv, Known;
    WithoutAbsent(s.deferred[1..], id);
  }

  lemma ReleasedJob(s: Server, id: JobId)
    requires Known(s, id)
    ensures Released(s, id).jobs == s.jobs[id := s.jobs[id].(deferTime := 0, state := Pending)]
  {
    ChangeShape(Undeferred(s, id), id, Pending, None, false);
    hide ChangeJobState;
  }
}
