/**
 The steps of the daemon on its tables: user commands, timers, agent messages and the scheduler.
 */
module SchedSteps {
  import opened Options
  import opened JobStates
  import opened Sequences
  import opened SchedState

  const MIN_PRIORITY := 0
  const MAX_PRIORITY := 255

  // -------------------------------------------------------------------------
  // Resources
  // -------------------------------------------------------------------------

  // Each needed resource on its own has enough left.
  predicate Available(res: map<ResId, Resource>, needs: seq<Need>) {
    forall i :: 0 <= i < |needs| ==>
      needs[i].res in res && needs[i].needed <= res[needs[i].res].count - res[needs[i].res].inUse
  }

  predicate NonNegative(needs: seq<Need>) {
    forall i :: 0 <= i < |needs| ==> needs[i].needed >= 0
  }

  predicate AllExist(res: map<ResId, Resource>, needs: seq<Need>) {
    forall i :: 0 <= i < |needs| ==> needs[i].res in res
  }

  function Allocate(res: map<ResId, Resource>, needs: seq<Need>): map<ResId, Resource>
    decreases needs
  {
    if needs == [] then res else Allocate(Taken(res, needs[0]), needs[1..])
  }

  function Taken(res: map<ResId, Resource>, n: Need): map<ResId, Resource> {
    if n.res in res then res[n.res := res[n.res].(inUse := res[n.res].inUse + n.needed)] else res
  }

  function Deallocate(res: map<ResId, Resource>, needs: seq<Need>): map<ResId, Resource>
    decreases needs
  {
    if needs == [] then res else Deallocate(Returned(res, needs[0]), needs[1..])
  }

  // A resource is never left below zero.
  function Returned(res: map<ResId, Resource>, n: Need): map<ResId, Resource> {
    if n.res !in res then res
    else
      var left := res[n.res].inUse - n.needed;
      res[n.res := res[n.res].(inUse := if left < 0 then 0 else left)]
  }

  // -------------------------------------------------------------------------
  // The deferred list
  // -------------------------------------------------------------------------

  // In front of the first job that is deferred at least as long.
  function InsertInOrder(list: seq<JobId>, jobs: map<JobId, Job>, id: JobId): seq<JobId>
    requires id in jobs
  {
    if list == [] || (list[0] in jobs && jobs[list[0]].deferTime >= jobs[id].deferTime) then [id] + list
    else [list[0]] + InsertInOrder(list[1..], jobs, id)
  }

  // -------------------------------------------------------------------------
  // User commands
  // -------------------------------------------------------------------------

  datatype Request = Request(queue: QueueId, deferTime: int, hold: bool, priority: int, needs: seq<Need>)

  predicate AddRefused(s: Server, id: JobId, r: Request) {
    id in s.jobs || r.queue !in s.queues || r.queue !in s.qstats || !AllExist(s.resources, r.needs)
  }

  // The job enters the table in no state at all.
  function AddEntered(s: Server, id: JobId, r: Request): Server {
    var jobs := s.jobs[id := Job(r.queue, NoState, false, false, false, false, r.deferTime, r.priority, r.needs)];
    s.(jobs := jobs, order := s.order + [id],
       deferred := if r.deferTime != 0 then InsertInOrder(s.deferred, jobs, id) else s.deferred)
  }

  function AddTarget(r: Request): JobState {
    if r.deferTime != 0 then Deferred else if r.hold then Holding else Pending
  }

  function AddJob(s: Server, id: JobId, r: Request): Server {
    if AddRefused(s, id, r) then s else ChangeJobState(AddEntered(s, id, r), id, AddTarget(r), None, true)
  }

  datatype Mod = Mod(restart: bool, deferTime: Option<int>, hold: Option<bool>, priority: Option<int>,
                     queue: Option<QueueId>, needs: Option<seq<Need>>)

  predicate Finished(st: JobState) {
    st == Completed || st == Exited || st == Unknown
  }

  predicate ModRefused(s: Server, id: JobId, m: Mod) {
    || !Known(s, id)
    || s.jobs[id].deleted
    || (Finished(s.jobs[id].state) && !m.restart && (m.deferTime.Some? || m.hold.Some?))
    || s.jobs[id].state == Running || s.jobs[id].started
    || (m.priority.Some? && !(MIN_PRIORITY <= m.priority.value <= MAX_PRIORITY))
    || (m.queue.Some? && !(m.queue.value in s.queues && m.queue.value in s.qstats))
    || (m.needs.Some? && !AllExist(s.resources, m.needs.value))
  }

  function OrElse<T>(o: Option<T>, x: T): T {
    if o.Some? then o.value else x
  }

  // The state a modified job goes to.
  function ModTarget(j: Job, m: Mod): JobState {
    if OrElse(m.deferTime, j.deferTime) != 0 then Deferred
    else if OrElse(m.hold, j.state == Holding) then Holding
    else if !Finished(j.state) || m.restart then Pending
    else j.state
  }

  // The job with its fields changed, before its state is settled.
  function ModEdited(s: Server, id: JobId, m: Mod): Server
    requires id in s.jobs
  {
    var j := s.jobs[id];
    var jobs := s.jobs[id := j.(deferTime := OrElse(m.deferTime, j.deferTime), priority := OrElse(m.priority, j.priority),
                                needs := OrElse(m.needs, j.needs))];
    s.(jobs := jobs, deferred := ModList(s.deferred, jobs, id, j.deferTime, m.deferTime),
       resources := if m.restart && j.state == Unknown then Deallocate(s.resources, j.needs) else s.resources)
  }

  // A changed deferral takes the job out of the list and puts it back where it now belongs.
  function ModList(list: seq<JobId>, jobs: map<JobId, Job>, id: JobId, was: int, now: Option<int>): seq<JobId>
    requires id in jobs
  {
    if now.None? then list
    else
      var rest := if was != 0 then Without(list, id) else list;
      if now.value != 0 then InsertInOrder(rest, jobs, id) else rest
  }

  predicate ModDirty(j: Job, m: Mod) {
    m.priority.Some? || m.deferTime.Some? || m.hold.Some? || m.queue.Some?
    || (m.needs.Some? && (j.needs != [] || m.needs.value != []))
    || (Finished(j.state) && m.restart) || ModTarget(j, m) != j.state
  }

  function ModJob(s: Server, id: JobId, m: Mod): Server {
    if ModRefused(s, id, m) then s
    else ChangeJobState(ModEdited(s, id, m), id, ModTarget(s.jobs[id], m), m.queue, ModDirty(s.jobs[id], m))
  }

  function DeleteMarked(s: Server, id: JobId): Server
    requires id in s.jobs
  {
    s.(jobs := s.jobs[id := s.jobs[id].(deleted := true)],
       deferred := if s.jobs[id].deferTime != 0 then Without(s.deferred, id) else s.deferred,
       deletedJobs := s.deletedJobs + 1)
  }

  function DeleteJob(s: Server, id: JobId): Server {
    if !Known(s, id) || s.jobs[id].deleted then s
    else ChangeJobState(DeleteMarked(s, id), id, NoState, None, false)
  }

  // The job's resources are given back.
  function NeedsReturned(s: Server, id: JobId): Server
    requires id in s.jobs
  {
    s.(resources := Deallocate(s.resources, s.jobs[id].needs))
  }

  function SignalUnknown(s: Server, id: JobId): Server {
    if !Known(s, id) || s.jobs[id].deleted || s.jobs[id].state != Unknown then s
    else ChangeJobState(NeedsReturned(s, id), id, Exited, None, true)
  }

  function ModQueue(s: Server, q: QueueId, limit: int, started: bool, priority: int): Server {
    if q !in s.queues then s
    else s.(queues := s.queues[q := s.queues[q].(limit := limit, started := started, priority := priority)])
  }

  function ModResource(s: Server, r: ResId, count: int): Server {
    if r !in s.resources then s
    else s.(resources := s.resources[r := s.resources[r].(count := count)])
  }

  // -------------------------------------------------------------------------
  // Removal of deleted jobs
  // -------------------------------------------------------------------------

  function ClearSlots(pool: seq<Option<JobId>>, id: JobId): seq<Option<JobId>> {
    if pool == [] then []
    else if pool[0] == Some(id) then [None] + pool[1..]
    else [pool[0]] + ClearSlots(pool[1..], id)
  }

  function CleanupJob(s: Server, id: JobId): Server {
    if id !in s.jobs || !s.jobs[id].deleted || s.jobs[id].dirty || s.jobs[id].flushing then s
    else s.(jobs := s.jobs - {id}, order := Without(s.order, id), pool := ClearSlots(s.pool, id),
            deletedJobs := s.deletedJobs - 1)
  }

  // The background saver turns the dirty and flushing marks of a job on and off.
  function SetMarks(s: Server, id: JobId, dirty: bool, flushing: bool): Server {
    if id !in s.jobs then s else s.(jobs := s.jobs[id := s.jobs[id].(dirty := dirty, flushing := flushing)])
  }

  // -------------------------------------------------------------------------
  // Timers
  // -------------------------------------------------------------------------

  function Undeferred(s: Server, id: JobId): Server
    requires id in s.jobs
  {
    s.(jobs := s.jobs[id := s.jobs[id].(deferTime := 0)], deferred := Without(s.deferred, id), recalc := true)
  }

  function Released(s: Server, id: JobId): Server
    requires Known(s, id)
  {
    ChangeJobState(Undeferred(s, id), id, Pending, None, false)
  }

  // Release jobs from the front of the list; the list is the one the loop started with.
  function ReleaseLoop(s: Server, list: seq<JobId>, now: int): Server
    decreases list
  {
    if list == [] || !Known(s, list[0]) || now < s.jobs[list[0]].deferTime then s
    else ReleaseLoop(Released(s, list[0]), list[1..], now)
  }

  function ReleaseDeferred(s: Server, now: int): Server {
    ReleaseLoop(s, s.deferred, now)
  }

  // -------------------------------------------------------------------------
  // Agent messages
  // -------------------------------------------------------------------------

  function ClearStarted(s: Server, id: JobId): Server
    requires id in s.jobs
  {
    s.(jobs := s.jobs[id := s.jobs[id].(started := false)])
  }

  function JobStarted(s: Server, id: JobId): Server {
    if !Known(s, id) then s else ClearStarted(ChangeJobState(s, id, Running, None, true), id)
  }

  function FinalState(failed: bool): JobState {
    if failed then Exited else Completed
  }

  function JobCompleted(s: Server, id: JobId, failed: bool): Server {
    if !Known(s, id) then s
    else ClearStarted(ChangeJobState(NeedsReturned(s, id), id, FinalState(failed), None, true), id)
  }

  // One item of a recon: a process that has ended, one that still runs, or neither is known.
  datatype ReconItem = Ended(id: JobId, failed: bool) | Alive(id: JobId) | NotKnown(id: JobId)

  function ReconOne(s: Server, item: ReconItem): Server {
    if !Known(s, item.id) then s
    else
      match item
      case Ended(id, failed) => ChangeJobState(s, id, FinalState(failed), None, true)
      case Alive(id) => ChangeJobState(s, id, Running, None, false)
      case NotKnown(_) => s
  }

  function ReconLoop(s: Server, items: seq<ReconItem>): Server
    decreases items
  {
    if items == [] then s else ReconLoop(ReconOne(s, items[0]), items[1..])
  }

  function Recon(s: Server, a: AgentId, items: seq<ReconItem>): Server {
    var s1 := ReconLoop(s, items);
    if a in s1.agents then s1.(agents := s1.agents[a := s1.agents[a].(recon := false)]) else s1
  }

  function Login(s: Server, a: AgentId, hosts: set<QueueId>): Server {
    s.(agents := s.agents[a := Agent(true, true)],
       queues := map q | q in s.queues :: if q in hosts then s.queues[q].(agent := Some(a)) else s.queues[q])
  }

  predicate RunsOn(s: Server, id: JobId, a: AgentId) {
    Known(s, id) && s.queues[s.jobs[id].queue].agent == Some(a) && (s.jobs[id].state == Running || s.jobs[id].started)
  }

  // All flags of the job are cleared before its state changes.
  function FlagsCleared(s: Server, id: JobId): Server
    requires id in s.jobs
  {
    s.(jobs := s.jobs[id := s.jobs[id].(started := false, deleted := false, flushing := false)])
  }

  function UnknownOne(s: Server, id: JobId): Server
    requires Known(s, id)
  {
    ChangeJobState(FlagsCleared(s, id), id, Unknown, None, true)
  }

  function UnknownLoop(s: Server, list: seq<JobId>, a: AgentId): Server
    decreases list
  {
    if list == [] then s
    else UnknownLoop(if RunsOn(s, list[0], a) then UnknownOne(s, list[0]) else s, list[1..], a)
  }

  function Disconnect(s: Server, a: AgentId): Server {
    var s1 := UnknownLoop(s, s.order, a);
    s1.(agents := s1.agents[a := Agent(false, if a in s1.agents then s1.agents[a].recon else false)],
        queues := map q | q in s1.queues ::
                    if s1.queues[q].agent == Some(a) then s1.queues[q].(agent := None, started := false) else s1.queues[q])
  }

  // -------------------------------------------------------------------------
  // The scheduler
  // -------------------------------------------------------------------------

  // The order of the candidate pool: queue priority, then job priority, then job id.
  predicate Before(s: Server, a: JobId, b: JobId)
    requires Known(s, a) && Known(s, b)
  {
    var ja, jb := s.jobs[a], s.jobs[b];
    var qa, qb := s.queues[ja.queue].priority, s.queues[jb.queue].priority;
    qa > qb || (qa == qb && (ja.priority > jb.priority || (ja.priority == jb.priority && a <= b)))
  }

  function InsertSorted(s: Server, id: JobId, list: seq<JobId>): (r: seq<JobId>)
    requires Known(s, id) && forall x :: x in list ==> Known(s, x)
    ensures forall x :: x in r <==> x == id || x in list
    ensures |r| == |list| + 1
  {
    if list == [] || Before(s, id, list[0]) then [id] + list
    else [list[0]] + InsertSorted(s, id, list[1..])
  }

  function Sorted(s: Server, list: seq<JobId>): (r: seq<JobId>)
    requires forall x :: x in list ==> Known(s, x)
    ensures forall x :: x in r <==> x in list
    ensures |r| == |list|
  {
    if list == [] then [] else InsertSorted(s, list[0], Sorted(s, list[1..]))
  }

  function PendingJobs(s: Server, list: seq<JobId>): (r: seq<JobId>)
    ensures forall x :: x in r <==> x in list && Known(s, x) && !s.jobs[x].deleted && s.jobs[x].state == Pending
    ensures |r| <= |list|
  {
    if list == [] then []
    else
      var rest := PendingJobs(s, list[1..]);
      if Known(s, list[0]) && !s.jobs[list[0]].deleted && s.jobs[list[0]].state == Pending then [list[0]] + rest else rest
  }

  function Slots(list: seq<JobId>): (r: seq<Option<JobId>>)
    ensures |r| == |list| && forall i :: 0 <= i < |list| ==> r[i] == Some(list[i])
  {
    if list == [] then [] else [Some(list[0])] + Slots(list[1..])
  }

  // The array grows to half as much again as it needs.
  function GrownSize(size: int, total: int): int {
    if size < total then total * 3 / 2 else size
  }

  // The sorted slots of all pending jobs.
  function Candidates(s: Server): seq<Option<JobId>> {
    if s.stats.Get(Pending) == 0 then [] else Slots(Sorted(s, PendingJobs(s, s.order)))
  }

  function GeneratePool(s: Server): Server {
    s.(poolSize := GrownSize(s.poolSize, s.stats.Get(Pending) + s.stats.Get(Deferred) + s.stats.Get(Holding)),
       pool := Candidates(s), recalc := false)
  }

  predicate SystemFull(s: Server) {
    s.maxRun != UNLIMITED_JOBS && s.stats.Get(Running) + s.stats.startPending > s.maxRun
  }

  predicate QueueFull(s: Server, q: QueueId)
    requires q in s.queues && q in s.qstats
  {
    s.qstats[q].Get(Running) + s.qstats[q].startPending >= s.queues[q].limit
  }

  predicate AgentReady(s: Server, q: QueueId)
    requires q in s.queues
  {
    var a := s.queues[q].agent;
    a.Some? && a.value in s.agents && s.agents[a.value].loggedIn && !s.agents[a.value].recon
  }

  // A pending job that has not been sent to its agent.
  predicate Candidate(s: Server, slot: Option<JobId>) {
    slot.Some? && Known(s, slot.value) && s.jobs[slot.value].state == Pending && !s.jobs[slot.value].started
  }

  // The tests a candidate has to pass, in the order of the source.
  predicate Startable(s: Server, slot: Option<JobId>) {
    && Candidate(s, slot)
    && !SystemFull(s)
    && !QueueFull(s, s.jobs[slot.value].queue)
    && Available(s.resources, s.jobs[slot.value].needs)
    && s.queues[s.jobs[slot.value].queue].started
    && AgentReady(s, s.jobs[slot.value].queue)
  }

  function Start(s: Server, id: JobId): Server
    requires Known(s, id)
  {
    var j := s.jobs[id];
    s.(resources := Allocate(s.resources, j.needs),
       jobs := s.jobs[id := j.(started := true)],
       stats := s.stats.(startPending := s.stats.startPending + 1),
       qstats := s.qstats[j.queue := s.qstats[j.queue].(startPending := s.qstats[j.queue].startPending + 1)])
  }

  // One visit of a pool slot.
  function Visit(s: Server, slot: Option<JobId>): Server {
    if Startable(s, slot) then Start(s, slot.value) else s
  }

  // The loop over the pool from slot i on, with `quota` starts left.
  function PassFrom(s: Server, i: nat, quota: int): Server
    decreases |s.pool| - i
  {
    if i >= |s.pool| then s
    else if Startable(s, s.pool[i]) then
      var s' := Start(s, s.pool[i].value);
      if quota <= 1 then s' else PassFrom(s', i + 1, quota - 1)
    else PassFrom(s, i + 1, quota)
  }

  function Quota(s: Server): int {
    if s.maxRun != UNLIMITED_JOBS && |s.pool| > s.maxRun - s.stats.Get(Running) then s.maxRun - s.stats.Get(Running) else |s.pool|
  }

  function CheckJobs(s: Server): Server {
    if s.maxRun != UNLIMITED_JOBS && s.stats.Get(Running) >= s.maxRun then s
    else
      var s1 := if s.recalc then GeneratePool(s) else s;
      if s1.readonly then s1 else PassFrom(s1, 0, Quota(s1))
  }
}
