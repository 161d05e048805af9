/**
 Short runs that show where the run limits, the deferred list, the counters and the order give way.
 */
module SchedWitness {
  import opened Options
  import opened JobStates
  import opened SchedState
  import opened SchedSteps
  import opened SchedRun
  import opened SchedLimits
  import opened SchedPass

  // A daemon with one queue and no resources.
  function Small(jobs: map<JobId, Job>, order: seq<JobId>, queue: Queue, agent: Agent, stats: Stats,
                 pool: seq<Option<JobId>>, poolSize: int, recalc: bool, maxRun: int): Server {
    Server(jobs, order, map[0 := queue], map[0 := stats], map[], map[0 := agent], stats, pool, poolSize, recalc, [], maxRun, 0, false)
  }

  function Plain(st: JobState, started: bool): Job {
    Job(0, st, started, false, true, false, 0, 0, [])
  }

  function SlotQueue(limit: int): Queue {
    Queue(limit, true, Some(0), 0)
  }

  const READY := Agent(true, false)
  const SUBMIT := Request(0, 0, false, 0, [])

  lemma {:induction false} RunAppend(s: Server, events: seq<Event>, e: Event)
    ensures Run(s, events + [e]) == Apply(Run(s, events), e)
    ensures IsRun(s, events) && MessageFits(Run(s, events), e) ==> IsRun(s, events + [e])
    decreases events
  {
    hide Apply, MessageFits;
    if events == [] {
      assert events + [e] == [e];
      assert Run(Apply(s, e), []) == Apply(s, e);
    } else {
      assert (events + [e])[1..] == events[1..] + [e];
      RunAppend(Apply(s, events[0]), events[1..], e);
    }
  }

  // One more step of a run.
  lemma Onward(s: Server, events: seq<Event>, t: Server, e: Event, u: Server)
    requires IsRun(s, events) && Run(s, events) == t && MessageFits(t, e) && Apply(t, e) == u
    ensures IsRun(s, events + [e]) && Run(s, events + [e]) == u
  {
    RunAppend(s, events, e);
  }

  // -------------------------------------------------------------------------
  // A queue over its limit
  // -------------------------------------------------------------------------

  function Slot0(): Server { Small(map[], [], SlotQueue(1), READY, Stats(map[], 0), [], 0, false, UNLIMITED_JOBS) }

  function Slot1(): Server {
    Small(map[1 := Plain(Pending, false)], [1], SlotQueue(1), READY, Stats(map[Pending := 1], 0), [], 0, true, UNLIMITED_JOBS)
  }

  function Slot2(): Server {
    Small(map[1 := Plain(Pending, true)], [1], SlotQueue(1), READY, Stats(map[Pending := 1], 1), [Some(1)], 1, false, UNLIMITED_JOBS)
  }

  function Slot3(): Server {
    Small(map[1 := Plain(Unknown, false)], [1], Queue(1, false, None, 0), Agent(false, false),
          Stats(map[Pending := 0, Unknown := 1], 1), [Some(1)], 1, false, UNLIMITED_JOBS)
  }

  function Slot4(): Server {
    Small(map[1 := Plain(Unknown, false)], [1], Queue(1, false, Some(0), 0), Agent(true, true),
          Stats(map[Pending := 0, Unknown := 1], 1), [Some(1)], 1, false, UNLIMITED_JOBS)
  }

  function Slot5(): Server {
    Small(map[1 := Plain(Running, false)], [1], Queue(1, false, Some(0), 0), READY,
          Stats(map[Pending := 0, Unknown := 0, Running := 1], 1), [Some(1)], 1, false, UNLIMITED_JOBS)
  }

  lemma Slot01()
    ensures Apply(Slot0(), Add(1, SUBMIT)) == Slot1()
  {
  }

  lemma Slot12()
    ensures Apply(Slot1(), ScheduleTimer) == Slot2()
  {
    var s := Slot1();
    assert PendingJobs(s, [1]) == [1] && Sorted(s, [1]) == [1] && Slots([1]) == [Some(1)];
    var g := GeneratePool(s);
    assert g == s.(pool := [Some(1)], poolSize := 1, recalc := false);
    assert Startable(g, Some(1));
    assert PassFrom(g, 0, 1) == Start(g, 1);
  }

  function Lost(): Server {
    Small(map[1 := Plain(Unknown, false)], [1], SlotQueue(1), READY, Stats(map[Pending := 0, Unknown := 1], 1), [Some(1)], 1, false, UNLIMITED_JOBS)
  }

  lemma LosesJob()
    ensures UnknownOne(Slot2(), 1) == Lost()
  {
    var s := FlagsCleared(Slot2(), 1);
    assert s == Small(map[1 := Plain(Pending, false)], [1], SlotQueue(1), READY, Stats(map[Pending := 1], 1), [Some(1)], 1, false, UNLIMITED_JOBS);
    assert Entered(Left(s.stats, Pending), Unknown, false) == Lost().stats;
    assert Recount(s.qstats, 0, Pending, 0, Unknown, false) == Lost().qstats;
    hide Recount, Left, Entered;
  }

  lemma Slot23()
    ensures Apply(Slot2(), AgentGone(0)) == Slot3()
  {
    LosesJob();
    hide UnknownOne;
    assert UnknownLoop(Slot2(), [1], 0) == Lost();
    assert Disconnect(Slot2(), 0).queues == map[0 := Queue(1, false, None, 0)];
    assert Disconnect(Slot2(), 0).agents == map[0 := Agent(false, false)];
  }

  lemma Slot34()
    ensures Apply(Slot3(), LoginMsg(0, {0})) == Slot4()
  {
  }

  lemma FindsJob()
    ensures Known(Slot4(), 1) && ChangeJobState(Slot4(), 1, Running, None, false) == Slot5().(agents := Slot4().agents)
  {
    var s := Slot4();
    assert Entered(Left(s.stats, Unknown), Running, false) == Slot5().stats;
    assert Recount(s.qstats, 0, Unknown, 0, Running, false) == map[0 := Slot5().stats];
    hide Recount, Left, Entered;
  }

  lemma Slot45()
    ensures Apply(Slot4(), ReconMsg(0, [Alive(1)])) == Slot5()
  {
    FindsJob();
    hide ChangeJobState;
    assert ReconOne(Slot4(), Alive(1)) == Slot5().(agents := Slot4().agents);
    hide ReconOne;
    assert ReconLoop(Slot4(), [Alive(1)]) == ReconOne(Slot4(), Alive(1));
  }

  // The agent goes away before it has answered a start and then reports the job as alive: the job is
  // counted twice, and the queue is over its limit of one.
  lemma ReconExceedsLimit() returns (s: Server, events: seq<Event>)
    ensures Initial(s) && IsRun(s, events) && 0 in s.queues && s.queues[0].limit == 1
    ensures 0 in Run(s, events).qstats && 0 in Run(s, events).queues && Load(Run(s, events).qstats[0]) > Run(s, events).queues[0].limit
  {
    Slot01(); Slot12(); Slot23(); Slot34(); Slot45();
    hide Apply;
    s, events := Slot0(), [];
    Onward(s, [], Slot0(), Add(1, SUBMIT), Slot1());
    events := [] + [Add(1, SUBMIT)];
    Onward(s, events, Slot1(), ScheduleTimer, Slot2());
    events := events + [ScheduleTimer];
    Onward(s, events, Slot2(), AgentGone(0), Slot3());
    events := events + [AgentGone(0)];
    Onward(s, events, Slot3(), LoginMsg(0, {0}), Slot4());
    events := events + [LoginMsg(0, {0})];
    Onward(s, events, Slot4(), ReconMsg(0, [Alive(1)]), Slot5());
    events := events + [ReconMsg(0, [Alive(1)])];
    hide Run, IsRun;
  }

  // -------------------------------------------------------------------------
  // More running jobs than the system limit
  // -------------------------------------------------------------------------

  function Two(a: Job, b: Job, stats: Stats): Server {
    Small(map[1 := a, 2 := b], [1, 2], SlotQueue(10), READY, stats, [Some(1), Some(2)], 3, false, 1)
  }

  function Full0(): Server { Small(map[], [], SlotQueue(10), READY, Stats(map[], 0), [], 0, false, 1) }

  function Full1(): Server {
    Small(map[1 := Plain(Pending, false)], [1], SlotQueue(10), READY, Stats(map[Pending := 1], 0), [], 0, true, 1)
  }

  function Full2(): Server {
    Small(map[1 := Plain(Pending, false), 2 := Plain(Pending, false)], [1, 2], SlotQueue(10), READY, Stats(map[Pending := 2], 0), [], 0, true, 1)
  }

  function Full3(): Server { Two(Plain(Pending, true), Plain(Pending, false), Stats(map[Pending := 2], 1)) }

  function Full4(): Server { Two(Plain(Pending, true), Plain(Pending, true), Stats(map[Pending := 2], 2)) }

  function Full5(): Server { Two(Plain(Running, false), Plain(Pending, true), Stats(map[Pending := 1, Running := 1], 1)) }

  function Full6(): Server { Two(Plain(Running, false), Plain(Running, false), Stats(map[Pending := 0, Running := 2], 0)) }

  lemma Full01()
    ensures Apply(Full0(), Add(1, SUBMIT)) == Full1()
  {
  }

  lemma Full12()
    ensures Apply(Full1(), Add(2, SUBMIT)) == Full2()
  {
    var s, t := AddEntered(Full1(), 2, SUBMIT), Full2();
    assert Entered(Left(s.stats, NoState), Pending, false) == t.stats;
    assert Recount(s.qstats, 0, NoState, 0, Pending, false) == t.qstats;
    hide Recount, Left, Entered;
    assert s.jobs[2 := Plain(Pending, false)] == t.jobs;
  }

  lemma FullPool()
    ensures GeneratePool(Full2()) == Full2().(pool := [Some(1), Some(2)], poolSize := 3, recalc := false)
  {
    var s := Full2();
    assert PendingJobs(s, [2]) == [2];
    assert PendingJobs(s, [1, 2]) == [1] + PendingJobs(s, [1, 2][1..]) == [1, 2];
    assert Sorted(s, [2]) == [2];
    assert Before(s, 1, 2);
    assert Sorted(s, [1, 2]) == InsertSorted(s, 1, Sorted(s, [1, 2][1..])) == [1, 2];
    assert Slots([1, 2]) == [Some(1), Some(2)];
  }

  lemma Full23()
    ensures Apply(Full2(), ScheduleTimer) == Full3()
  {
    FullPool();
    var g := GeneratePool(Full2());
    hide GeneratePool;
    assert Startable(g, Some(1));
    assert PassFrom(g, 0, 1) == Start(g, 1);
  }

  lemma Full34()
    ensures Apply(Full3(), ScheduleTimer) == Full4()
  {
    var s := Full3();
    assert !Startable(s, Some(1)) && Startable(s, Some(2));
    assert PassFrom(s, 1, 1) == Start(s, 2);
    assert PassFrom(s, 0, 1) == PassFrom(s, 1, 1);
  }

  // A start report changes the counters of the server and of its one queue alike.
  lemma StartReport(id: JobId, a: Job, b: Job, stats: Stats, stats': Stats)
    requires id == 1 || id == 2
    requires (if id == 1 then a else b) == Plain(Pending, true) && Entered(Left(stats, Pending), Running, true) == stats'
    ensures JobStarted(Two(a, b, stats), id)
            == Two(if id == 1 then Plain(Running, false) else a, if id == 2 then Plain(Running, false) else b, stats')
  {
    var s := Two(a, b, stats);
    ReportChange(id, a, b, stats, stats');
    hide ChangeJobState;
    var t := Two(if id == 1 then Plain(Running, true) else a, if id == 2 then Plain(Running, true) else b, stats');
    var done := Two(if id == 1 then Plain(Running, false) else a, if id == 2 then Plain(Running, false) else b, stats');
    assert t.jobs[id := Plain(Running, false)] == done.jobs;
  }

  lemma ReportChange(id: JobId, a: Job, b: Job, stats: Stats, stats': Stats)
    requires id == 1 || id == 2
    requires (if id == 1 then a else b) == Plain(Pending, true) && Entered(Left(stats, Pending), Running, true) == stats'
    ensures Known(Two(a, b, stats), id)
    ensures ChangeJobState(Two(a, b, stats), id, Running, None, true)
            == Two(if id == 1 then Plain(Running, true) else a, if id == 2 then Plain(Running, true) else b, stats')
  {
    hide Left, Entered;
    var s := Two(a, b, stats);
    assert Recount(s.qstats, 0, Pending, 0, Running, true) == map[0 := stats'];
    hide Recount;
    var t := Two(if id == 1 then Plain(Running, true) else a, if id == 2 then Plain(Running, true) else b, stats');
    assert s.jobs[id := Plain(Running, true)] == t.jobs;
  }

  lemma Full45()
    ensures Apply(Full4(), StartedMsg(1)) == Full5()
  {
    assert Entered(Left(Full4().stats, Pending), Running, true) == Full5().stats;
    StartReport(1, Plain(Pending, true), Plain(Pending, true), Full4().stats, Full5().stats);
    hide JobStarted;
  }

  lemma Full56()
    ensures Apply(Full5(), StartedMsg(2)) == Full6()
  {
    assert Entered(Left(Full5().stats, Pending), Running, true) == Full6().stats;
    StartReport(2, Plain(Running, false), Plain(Pending, true), Full5().stats, Full6().stats);
    hide JobStarted;
  }

  // The second pass counts the unanswered start and still lets one more job through: with a system
  // limit of one, two jobs run.
  lemma RunningExceedsSystemLimit() returns (s: Server, events: seq<Event>)
    ensures Initial(s) && IsRun(s, events) && s.maxRun == 1
    ensures Run(s, events).stats.Get(Running) == 2
  {
    Full01(); Full12(); Full23(); Full34(); Full45(); Full56();
    hide Apply;
    s, events := Full0(), [];
    Onward(s, [], Full0(), Add(1, SUBMIT), Full1());
    events := [] + [Add(1, SUBMIT)];
    Onward(s, events, Full1(), Add(2, SUBMIT), Full2());
    events := events + [Add(2, SUBMIT)];
    Onward(s, events, Full2(), ScheduleTimer, Full3());
    events := events + [ScheduleTimer];
    Onward(s, events, Full3(), ScheduleTimer, Full4());
    events := events + [ScheduleTimer];
    Onward(s, events, Full4(), StartedMsg(1), Full5());
    events := events + [StartedMsg(1)];
    Onward(s, events, Full5(), StartedMsg(2), Full6());
    events := events + [StartedMsg(2)];
    hide Run, IsRun;
  }

  // -------------------------------------------------------------------------
  // A job that is reported as ended twice
  // -------------------------------------------------------------------------

  // The first report, after which the agent goes away without having read the acknowledgement.
  function Twice5(): Server {
    Small(map[1 := Plain(Completed, false)], [1], Queue(1, false, Some(0), 0), READY,
          Stats(map[Pending := 0, Unknown := 0, Completed := 1], 1), [Some(1)], 1, false, UNLIMITED_JOBS)
  }

  function Twice6(): Server {
    Small(map[1 := Plain(Completed, false)], [1], Queue(1, false, None, 0), Agent(false, false),
          Stats(map[Pending := 0, Unknown := 0, Completed := 1], 1), [Some(1)], 1, false, UNLIMITED_JOBS)
  }

  const ENDED := ReconMsg(0, [Ended(1, false)])

  // A recon that names the one job as ended, in terms of its counters.
  lemma EndedStep(s: Server, j: Job, before: Stats, after: Stats)
    requires s.jobs == map[1 := j] && j.queue == 0 && 0 in s.queues && s.qstats == map[0 := before] && s.stats == before
    requires j.state != Completed && after == Entered(Left(before, j.state), Completed, j.started)
    requires s.agents == map[0 := Agent(true, true)]
    ensures Apply(s, ENDED) == s.(jobs := map[1 := j.(state := Completed, dirty := true)], stats := after, qstats := map[0 := after],
                                  agents := map[0 := READY])
  {
    EndedItem(s, j, before, after);
    hide ReconOne, Left, Entered;
    assert ReconLoop(s, [Ended(1, false)]) == ReconOne(s, Ended(1, false));
  }

  lemma EndedItem(s: Server, j: Job, before: Stats, after: Stats)
    requires s.jobs == map[1 := j] && j.queue == 0 && 0 in s.queues && s.qstats == map[0 := before] && s.stats == before
    requires j.state != Completed && after == Entered(Left(before, j.state), Completed, j.started)
    ensures ReconOne(s, Ended(1, false))
            == s.(jobs := map[1 := j.(state := Completed, dirty := true)], stats := after, qstats := map[0 := after])
  {
    hide Left, Entered;
    assert Recount(s.qstats, 0, j.state, 0, Completed, j.started) == map[0 := after];
    hide Recount;
  }

  lemma Twice45()
    ensures Apply(Slot4(), ENDED) == Twice5()
  {
    EndedStep(Slot4(), Plain(Unknown, false), Slot4().stats, Twice5().stats);
    hide Apply;
  }

  lemma Twice56()
    ensures Apply(Twice5(), AgentGone(0)) == Twice6()
  {
    assert !RunsOn(Twice5(), 1, 0);
    assert UnknownLoop(Twice5(), [1], 0) == Twice5();
    assert Disconnect(Twice5(), 0).queues == map[0 := Queue(1, false, None, 0)];
    assert Disconnect(Twice5(), 0).agents == map[0 := Agent(false, false)];
  }

  ghost predicate Reached(t: Server) {
    exists events :: IsRun(Slot0(), events) && Run(Slot0(), events) == t
  }

  lemma Next(t: Server, e: Event, u: Server)
    requires Reached(t) && MessageFits(t, e) && Apply(t, e) == u
    ensures Reached(u)
  {
    hide Slot0, Apply;
    var events :| IsRun(Slot0(), events) && Run(Slot0(), events) == t;
    Onward(Slot0(), events, t, e, u);
  }

  lemma ReachSlot4()
    ensures Reached(Slot4())
  {
    assert IsRun(Slot0(), []) && Run(Slot0(), []) == Slot0() && Reached(Slot0());
    Slot01(); Slot12(); Slot23(); Slot34();
    hide Reached, Apply, Slot0, Slot1, Slot2, Slot3, Slot4;
    Next(Slot0(), Add(1, SUBMIT), Slot1());
    Next(Slot1(), ScheduleTimer, Slot2());
    Next(Slot2(), AgentGone(0), Slot3());
    Next(Slot3(), LoginMsg(0, {0}), Slot4());
  }

  lemma ReachTwice6()
    ensures Reached(Twice6())
  {
    ReachSlot4();
    Twice45(); Twice56();
    hide Reached, Apply, Slot4, Twice5, Twice6;
    Next(Slot4(), ENDED, Twice5());
    Next(Twice5(), AgentGone(0), Twice6());
  }

  // The user restarts the job with a deferral time before the agent comes back.
  const RESTART := Mod(true, Some(5), None, None, None, None)

  function Deferred7(): Server {
    Small(map[1 := Plain(Deferred, false).(deferTime := 5)], [1], Queue(1, false, None, 0), Agent(false, false),
          Stats(map[Pending := 0, Unknown := 0, Completed := 0, Deferred := 1], 1), [Some(1)], 1, true, UNLIMITED_JOBS).(deferred := [1])
  }

  function Deferred8(): Server {
    Deferred7().(queues := map[0 := Queue(1, false, Some(0), 0)], agents := map[0 := Agent(true, true)])
  }

  function Deferred9(): Server {
    Deferred7().(jobs := map[1 := Plain(Completed, false).(deferTime := 5)], queues := map[0 := Queue(1, false, Some(0), 0)],
                 agents := map[0 := READY], stats := Twice, qstats := map[0 := Twice])
  }

  const Twice := Stats(map[Pending := 0, Unknown := 0, Completed := 1, Deferred := 0], 1)

  lemma Deferred78()
    ensures Apply(Deferred7(), LoginMsg(0, {0})) == Deferred8()
  {
  }

  lemma Deferred89()
    ensures Apply(Deferred8(), ENDED) == Deferred9()
  {
    EndedStep(Deferred8(), Plain(Deferred, false).(deferTime := 5), Deferred8().stats, Twice);
    hide Apply;
  }

  lemma RestartStep()
    ensures Apply(Twice6(), Modify(1, RESTART)) == Deferred7()
  {
    var s := Twice6();
    var s1 := ModEdited(s, 1, RESTART);
    assert s1 == s.(jobs := map[1 := Plain(Completed, false).(deferTime := 5)], deferred := [1]);
    assert Entered(Left(s.stats, Completed), Deferred, false) == Deferred7().stats;
    assert Recount(s.qstats, 0, Completed, 0, Deferred, false) == Deferred7().qstats;
    hide Recount, Left, Entered, ModEdited;
  }

  lemma ReachDeferred9()
    ensures Reached(Deferred9())
  {
    ReachTwice6();
    RestartStep(); Deferred78(); Deferred89();
    hide Reached, Apply, Twice6, Deferred7, Deferred8, Deferred9;
    Next(Twice6(), Modify(1, RESTART), Deferred7());
    Next(Deferred7(), LoginMsg(0, {0}), Deferred8());
    Next(Deferred8(), ENDED, Deferred9());
  }

  // A restarted and deferred job is reported as ended a second time: it is COMPLETED and still listed,
  // so that it will be released and run again.
  lemma DeferredJobCanBeEnded() returns (s: Server, events: seq<Event>)
    ensures Initial(s) && IsRun(s, events)
    ensures var t := Run(s, events); t.deferred == [1] && 1 in t.jobs && t.jobs[1].state == Completed
  {
    ReachDeferred9();
    assert Deferred9().deferred == [1] && 1 in Deferred9().jobs && Deferred9().jobs[1].state == Completed;
    s := Slot0();
    hide Run, IsRun, Deferred9;
    events :| IsRun(Slot0(), events) && Run(Slot0(), events) == Deferred9();
  }

  // The user deletes the job before the agent comes back.
  function Deleted7(): Server {
    Small(map[1 := Plain(NoState, false).(deleted := true)], [1], Queue(1, false, None, 0), Agent(false, false),
          Stats(map[Pending := 0, Unknown := 0, Completed := 0], 1), [Some(1)], 1, false, UNLIMITED_JOBS).(deletedJobs := 1)
  }

  function Deleted8(): Server {
    Deleted7().(queues := map[0 := Queue(1, false, Some(0), 0)], agents := map[0 := Agent(true, true)])
  }

  function Deleted9(): Server {
    Small(map[1 := Plain(Completed, false).(deleted := true)], [1], Queue(1, false, Some(0), 0), READY,
          Stats(map[Pending := 0, Unknown := 0, Completed := 1], 1), [Some(1)], 1, false, UNLIMITED_JOBS).(deletedJobs := 1)
  }

  function Deleted10(): Server {
    Deleted9().(jobs := map[1 := Plain(Completed, false).(deleted := true, dirty := false)])
  }

  lemma DeleteStep()
    ensures Apply(Twice6(), Delete(1)) == Deleted7()
  {
    var s := Twice6();
    assert DeleteMarked(s, 1) == s.(jobs := map[1 := Plain(Completed, false).(deleted := true)], deletedJobs := 1);
    assert Entered(Left(s.stats, Completed), NoState, false) == Deleted7().stats;
    assert Recount(s.qstats, 0, Completed, 0, NoState, false) == Deleted7().qstats;
    hide Recount, Left, Entered, DeleteMarked;
  }

  lemma Deleted78()
    ensures Apply(Deleted7(), LoginMsg(0, {0})) == Deleted8()
  {
  }

  lemma Deleted89()
    ensures Apply(Deleted8(), ENDED) == Deleted9()
  {
    EndedStep(Deleted8(), Plain(NoState, false).(deleted := true), Deleted8().stats, Deleted9().stats);
    hide Apply;
  }

  lemma Deleted910()
    ensures Apply(Deleted9(), Marks(1, false, false)) == Deleted10()
    ensures Apply(Deleted10(), Cleanup(1)).jobs == map[] && Apply(Deleted10(), Cleanup(1)).stats == Deleted9().stats
  {
  }

  lemma ReachDeleted9()
    ensures Reached(Deleted9())
  {
    ReachTwice6();
    DeleteStep(); Deleted78(); Deleted89();
    hide Reached, Apply, Twice6, Deleted7, Deleted8, Deleted9;
    Next(Twice6(), Delete(1), Deleted7());
    Next(Deleted7(), LoginMsg(0, {0}), Deleted8());
    Next(Deleted8(), ENDED, Deleted9());
  }

  lemma ReachRemoved() returns (t: Server)
    ensures Reached(t) && t.jobs == map[] && t.stats.Get(Completed) == 1
  {
    ReachDeleted9();
    Deleted910();
    assert Deleted9().stats.Get(Completed) == 1;
    hide Reached, Apply, Deleted9, Deleted10;
    t := Apply(Deleted10(), Cleanup(1));
    Next(Deleted9(), Marks(1, false, false), Deleted10());
    Next(Deleted10(), Cleanup(1), t);
  }

  // A deleted job is reported as ended a second time, saved and removed: no job is left, and the
  // daemon still counts one that has completed.
  lemma RemovedJobStaysCounted() returns (s: Server, events: seq<Event>)
    ensures Initial(s) && IsRun(s, events)
    ensures var t := Run(s, events); t.jobs == map[] && t.stats.Get(Completed) == 1
  {
    var t := ReachRemoved();
    s := Slot0();
    hide Run, IsRun;
    events :| IsRun(Slot0(), events) && Run(Slot0(), events) == t;
  }

  // -------------------------------------------------------------------------
  // A job started ahead of one that ranks higher
  // -------------------------------------------------------------------------

  const RAISED := Mod(false, None, None, Some(9), None, None)

  // Two waiting jobs in a queue for one job, the second of the given priority.
  function Pair(pool: seq<Option<JobId>>, poolSize: int, recalc: bool, started: bool, priority: int): Server {
    Small(map[1 := Plain(Pending, false), 2 := Plain(Pending, false).(priority := priority)], [1, 2], Queue(1, started, Some(0), 0), READY,
          Stats(map[Pending := 2], 0), pool, poolSize, recalc, UNLIMITED_JOBS)
  }

  function Stale0(): Server { Small(map[], [], Queue(1, false, Some(0), 0), READY, Stats(map[], 0), [], 0, false, UNLIMITED_JOBS) }

  function Stale1(): Server {
    Small(map[1 := Plain(Pending, false)], [1], Queue(1, false, Some(0), 0), READY, Stats(map[Pending := 1], 0), [], 0, true, UNLIMITED_JOBS)
  }

  function Both(): seq<Option<JobId>> { [Some(1), Some(2)] }

  lemma Stale01()
    ensures Apply(Stale0(), Add(1, SUBMIT)) == Stale1()
  {
  }

  lemma Stale12()
    ensures Apply(Stale1(), Add(2, SUBMIT)) == Pair([], 0, true, false, 0)
  {
    var s, t := AddEntered(Stale1(), 2, SUBMIT), Pair([], 0, true, false, 0);
    assert Entered(Left(s.stats, NoState), Pending, false) == t.stats;
    assert Recount(s.qstats, 0, NoState, 0, Pending, false) == t.qstats;
    hide Recount, Left, Entered;
    assert s.jobs[2 := Plain(Pending, false)] == t.jobs;
  }

  lemma PairPool()
    ensures GeneratePool(Pair([], 0, true, false, 0)) == Pair(Both(), 3, false, false, 0)
  {
    var s := Pair([], 0, true, false, 0);
    assert Known(s, 1) && Known(s, 2) && Before(s, 1, 2);
    assert PendingJobs(s, [2]) == [2];
    assert PendingJobs(s, [1, 2]) == [1] + PendingJobs(s, [1, 2][1..]) == [1, 2];
    assert Sorted(s, [2]) == [2];
    hide Before, PendingJobs;
    assert Sorted(s, [1, 2]) == InsertSorted(s, 1, Sorted(s, [1, 2][1..])) == [1, 2];
    assert Slots([1, 2]) == [Some(1), Some(2)];
    hide Sorted, Slots;
  }

  // While the queue is stopped a pass builds the pool and starts nothing.
  lemma Stale23()
    ensures Apply(Pair([], 0, true, false, 0), ScheduleTimer) == Pair(Both(), 3, false, false, 0)
  {
    PairPool();
    hide GeneratePool;
    var g := Pair(Both(), 3, false, false, 0);
    assert !Startable(g, Some(1)) && !Startable(g, Some(2));
    assert PassFrom(g, 2, 2) == g;
    assert PassFrom(g, 1, 2) == PassFrom(g, 2, 2);
    assert PassFrom(g, 0, 2) == PassFrom(g, 1, 2);
  }

  lemma Stale34()
    ensures Apply(Pair(Both(), 3, false, false, 0), Modify(2, RAISED)) == Pair(Both(), 3, false, false, 9)
  {
    var s, t := Pair(Both(), 3, false, false, 0), Pair(Both(), 3, false, false, 9);
    assert s.jobs[2 := Plain(Pending, false).(priority := 9)] == t.jobs;
    assert t.jobs[2 := Plain(Pending, false).(priority := 9)] == t.jobs;
    assert ModEdited(s, 2, RAISED) == t;
    hide ModEdited;
  }

  lemma Stale45()
    ensures Apply(Pair(Both(), 3, false, false, 9), ChangeQueue(0, 1, true, 0)) == Pair(Both(), 3, false, true, 9)
  {
  }

  // Job 2 is given a higher priority after the pool was built. The next pass starts job 1, although job 2
  // ranks higher and could be started.
  lemma LowerRankCanStartFirst() returns (s: Server, events: seq<Event>)
    ensures Initial(s) && IsRun(s, events)
    ensures var t := Run(s, events);
            && !t.recalc && t.pool == [Some(1), Some(2)] && Known(t, 1) && Known(t, 2) && Before(t, 2, 1)
            && Startable(Visited(t, 0), t.pool[0]) && Startable(Visited(t, 0), Some(2))
  {
    Stale01(); Stale12(); Stale23(); Stale34(); Stale45();
    var t := Pair(Both(), 3, false, true, 9);
    assert Initial(Stale0()) && IsRun(Stale0(), []) && Run(Stale0(), []) == Stale0();
    assert Visited(t, 0) == t && Startable(t, Some(1)) && Startable(t, Some(2)) && Before(t, 2, 1);
    hide Apply, Run, IsRun, Initial, Pair, Stale0, Stale1, Startable, Before, Visited;
    s := Stale0();
    var e1 := [] + [Add(1, SUBMIT)];
    Onward(s, [], Stale0(), Add(1, SUBMIT), Stale1());
    var e2 := e1 + [Add(2, SUBMIT)];
    Onward(s, e1, Stale1(), Add(2, SUBMIT), Pair([], 0, true, false, 0));
    var e3 := e2 + [ScheduleTimer];
    Onward(s, e2, Pair([], 0, true, false, 0), ScheduleTimer, Pair(Both(), 3, false, false, 0));
    var e4 := e3 + [Modify(2, RAISED)];
    Onward(s, e3, Pair(Both(), 3, false, false, 0), Modify(2, RAISED), Pair(Both(), 3, false, false, 9));
    events := e4 + [ChangeQueue(0, 1, true, 0)];
    Onward(s, e4, Pair(Both(), 3, false, false, 9), ChangeQueue(0, 1, true, 0), t);
  }
}
