/**
 Jobs that a user has put on hold or deferred: over all runs none of them is sent before it is released.
 */
module SchedParked {
  import opened Options
  import opened JobStates
  import opened SchedState
  import opened SchedSteps
  import opened SchedDefer
  import opened SchedRun
  import opened SchedView
  import opened SchedStarts

  // On hold, or deferred to a time.
  predicate Parked(j: Job) {
    !j.deleted && !j.started && (j.state == Holding || j.state == Deferred)
  }

  // The step releases, re-times or removes the parked job, or an agent speaks of it.
  predicate Frees(e: Event, id: JobId, j: Job) {
    match e
    case Modify(x, m) =>
      x == id && ((j.state == Holding && m.hold == Some(false)) || (m.deferTime.Some? && m.deferTime.value != j.deferTime))
    case Delete(x) => x == id
    case ReleaseTimer(now) => j.state == Deferred && j.deferTime <= now
    case StartedMsg(x) => x == id
    case CompletedMsg(x, _) => x == id
    case ReconMsg(_, items) => exists i :: 0 <= i < |items| && items[i].id == id && !items[i].NotKnown?
    case _ => false
  }

  // The job is as parked as it was: neither sent, nor in another state, nor due at another time.
  predicate StillParked(s: Server, id: JobId, j: Job) {
    id in s.jobs && Parked(s.jobs[id]) && s.jobs[id].state == j.state && s.jobs[id].deferTime == j.deferTime
  }

  lemma {:induction false} NoWord(items: seq<ReconItem>, id: JobId)
    requires forall i :: 0 <= i < |items| ==> items[i].id != id || items[i].NotKnown?
    ensures LastWord(items, id) == None
    decreases |items|
  {
    if items != [] { NoWord(items[..|items| - 1], id); }
  }

  lemma TableOf(s: Server)
    requires BaseInv(s)
    ensures TableInv(s)
  {
  }

  lemma JobOf(s: Server, id: JobId)
    requires BaseInv(s) && id in s.jobs
    ensures JobOk(s.jobs[id])
  {
  }

  lemma HoldGiven(hold: Option<bool>)
    ensures hold == None || hold == Some(true) || hold == Some(false)
  {
    if hold.Some? { assert hold == Some(hold.value) && (hold.value == true || hold.value == false); }
  }

  // A step that works on another job.
  lemma OtherJob(s: Server, t: Server, x: JobId, id: JobId, j: Job)
    requires OthersKept(s, t, x) && x != id && StillParked(s, id, j)
    ensures StillParked(t, id, j)
  {
  }

  lemma ModifyLeavesParked(s: Server, x: JobId, m: Mod, id: JobId, j: Job)
    requires BaseInv(s) && StillParked(s, id, j) && !Frees(Modify(x, m), id, j)
    ensures StillParked(ModJob(s, x, m), id, j)
  {
    hide BaseInv, TableInv, ModJob, Modifiable, OthersKept, Dirtied;
    TableOf(s);
    JobOf(s, id);
    ModifyEffect(s, x, m);
    if x != id { OtherJob(s, ModJob(s, x, m), x, id, j); } else { HoldGiven(m.hold); }
  }

  lemma RemovalLeavesParked(s: Server, e: Event, id: JobId, j: Job)
    requires BaseInv(s) && StillParked(s, id, j) && !Frees(e, id, j) && (e.Delete? || e.Signal? || e.Cleanup? || e.Marks?)
    ensures StillParked(Apply(s, e), id, j)
  {
    hide BaseInv, TableInv, DeleteJob, SignalUnknown, CleanupJob, OthersKept;
    TableOf(s);
    match e
    case Delete(x) => DeleteEffect(s, x); OtherJob(s, DeleteJob(s, x), x, id, j);
    case Signal(x) => SignalEffect(s, x); if x != id { OtherJob(s, SignalUnknown(s, x), x, id, j); }
    case Cleanup(x) => CleanupEffect(s, x); if x != id { OtherJob(s, CleanupJob(s, x), x, id, j); }
    case Marks(x, _, _) =>
  }

  lemma AddLeavesParked(s: Server, x: JobId, r: Request, id: JobId, j: Job)
    requires StillParked(s, id, j)
    ensures StillParked(AddJob(s, x, r), id, j)
  {
    SubmitEffect(s, x, r);
    hide AddJob, OthersKept;
    if x != id { OtherJob(s, AddJob(s, x, r), x, id, j); }
  }

  lemma ReportLeavesParked(s: Server, e: Event, id: JobId, j: Job)
    requires BaseInv(s) && StillParked(s, id, j) && !Frees(e, id, j) && (e.StartedMsg? || e.CompletedMsg?)
    ensures StillParked(Apply(s, e), id, j)
  {
    hide BaseInv, TableInv, JobStarted, JobCompleted, OthersKept;
    TableOf(s);
    match e
    case StartedMsg(x) => StartedEffect(s, x); OtherJob(s, JobStarted(s, x), x, id, j);
    case CompletedMsg(x, failed) => CompletedEffect(s, x, failed); OtherJob(s, JobCompleted(s, x, failed), x, id, j);
  }

  lemma ReconLeavesParked(s: Server, a: AgentId, items: seq<ReconItem>, id: JobId, j: Job)
    requires BaseInv(s) && StillParked(s, id, j) && !Frees(ReconMsg(a, items), id, j)
    ensures StillParked(Recon(s, a, items), id, j)
  {
    hide BaseInv, TableInv, Recon;
    TableOf(s);
    NoWord(items, id);
    ReconEffect(s, a, items, id);
  }

  lemma GoneLeavesParked(s: Server, a: AgentId, id: JobId, j: Job)
    requires BaseInv(s) && StillParked(s, id, j)
    ensures StillParked(Disconnect(s, a), id, j)
  {
    hide BaseInv, TableInv, Disconnect;
    TableOf(s);
    AgentGoneEffect(s, a, id);
  }

  lemma TimersLeaveParked(s: Server, e: Event, id: JobId, j: Job)
    requires BaseInv(s) && StillParked(s, id, j) && !Frees(e, id, j)
    requires e.ReleaseTimer? || e.ScheduleTimer? || e.ChangeQueue? || e.ChangeResource?
    ensures StillParked(Apply(s, e), id, j)
  {
    assert JobOk(s.jobs[id]);
    assert id in s.deferred <==> Listed(s.jobs[id]);
    if e.ReleaseTimer? { ReleaseIsExact(s, e.now, id); }
    if e.ScheduleTimer? { ScheduleSends(s, id); }
    hide BaseInv, ReleaseDeferred, CheckJobs;
  }

  lemma StepLeavesParked(s: Server, e: Event, id: JobId, j: Job)
    requires BaseInv(s) && StillParked(s, id, j) && !Frees(e, id, j)
    ensures StillParked(Apply(s, e), id, j)
  {
    hide BaseInv, Frees, AddJob, ModJob, Recon, Disconnect;
    match e
    case Add(x, r) => AddLeavesParked(s, x, r, id, j); hide StillParked;
    case Modify(x, m) => ModifyLeavesParked(s, x, m, id, j); hide StillParked;
    case Delete(_) => RemovalLeavesParked(s, e, id, j); hide StillParked;
    case Signal(_) => RemovalLeavesParked(s, e, id, j); hide StillParked;
    case Cleanup(_) => RemovalLeavesParked(s, e, id, j); hide StillParked;
    case Marks(_, _, _) => RemovalLeavesParked(s, e, id, j); hide StillParked;
    case StartedMsg(_) => ReportLeavesParked(s, e, id, j); hide StillParked;
    case CompletedMsg(_, _) => ReportLeavesParked(s, e, id, j); hide StillParked;
    case ReconMsg(a, items) => ReconLeavesParked(s, a, items, id, j); hide StillParked;
    case LoginMsg(_, _) =>
    case AgentGone(a) => GoneLeavesParked(s, a, id, j); hide StillParked;
    case _ => TimersLeaveParked(s, e, id, j); hide StillParked;
  }

  // Over all runs: a job on hold stays on hold and unsent until a modification lifts the hold or defers it,
  // and a deferred job stays so until its time or a modification of that time, unless it is deleted or an
  // agent reports it.
  lemma {:induction false} ParkedUntilFreed(s: Server, events: seq<Event>, id: JobId)
    requires BaseInv(s) && IsRun(s, events) && id in s.jobs && Parked(s.jobs[id])
    requires forall i :: 0 <= i < |events| ==> !Frees(events[i], id, s.jobs[id])
    ensures var t := Run(s, events);
            && id in t.jobs && !t.jobs[id].started && !t.jobs[id].deleted
            && t.jobs[id].state == s.jobs[id].state && t.jobs[id].deferTime == s.jobs[id].deferTime
    decreases events
  {
    if events != [] {
      StepLeavesParked(s, events[0], id, s.jobs[id]);
      StepBase(s, events[0]);
      hide BaseInv, Apply, MessageFits;
      var s1 := Apply(s, events[0]);
      forall i | 0 <= i < |events| - 1 ensures !Frees(events[1..][i], id, s1.jobs[id]) { SameFrees(events[i + 1], id, s.jobs[id], s1.jobs[id]); }
      hide Frees;
      ParkedUntilFreed(s1, events[1..], id);
    }
  }

  lemma SameFrees(e: Event, id: JobId, j: Job, j': Job)
    requires j.state == j'.state && j.deferTime == j'.deferTime
    ensures Frees(e, id, j) <==> Frees(e, id, j')
  {
  }
}
