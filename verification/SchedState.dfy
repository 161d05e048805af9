/**
 The daemon's tables: jobs, queues, resources, counters, the candidate pool and the deferred list.
 */
module SchedState {
  import opened Options
  import opened JobStates
  import opened Sequences

  type JobId = nat
  type QueueId = nat
  type ResId = nat
  type AgentId = nat

  datatype Need = Need(res: ResId, needed: int)

  datatype Job = Job(
    queue: QueueId, state: JobState, started: bool, deleted: bool, dirty: bool, flushing: bool,
    deferTime: int, priority: int, needs: seq<Need>)

  // One struct jobStats: a counter per state, NoState having none, and the number of starts sent
  // but not answered.
  datatype Stats = Stats(counts: map<JobState, int>, startPending: int) {
    function Get(st: JobState): int {
      if st in counts then counts[st] else 0
    }

    function Add(st: JobState, d: int): Stats {
      if st == NoState then this else this.(counts := counts[st := Get(st) + d])
    }
  }

  datatype Queue = Queue(limit: int, started: bool, agent: Option<AgentId>, priority: int)

  datatype Agent = Agent(loggedIn: bool, recon: bool)

  datatype Resource = Resource(count: int, inUse: int)

  // `order` is the iteration order of the job table, `qstats` holds the counters of each queue, and
  // a pool slot is None once its job is gone.
  datatype Server = Server(
    jobs: map<JobId, Job>, order: seq<JobId>, queues: map<QueueId, Queue>, qstats: map<QueueId, Stats>,
    resources: map<ResId, Resource>, agents: map<AgentId, Agent>, stats: Stats, pool: seq<Option<JobId>>, poolSize: int, recalc: bool,
    deferred: seq<JobId>, maxRun: int, deletedJobs: int, readonly: bool)

  const UNLIMITED_JOBS := -1

  // Every listed job is in the table, and its queue exists.
  predicate TableInv(s: Server) {
    && Distinct(s.order)
    && (forall id :: id in s.order ==> id in s.jobs)
    && (forall id :: id in s.jobs ==> id in s.order && Known(s, id))
  }

  predicate Known(s: Server, id: JobId) {
    id in s.jobs && s.jobs[id].queue in s.queues && s.jobs[id].queue in s.qstats
  }

  // -------------------------------------------------------------------------
  // Sums over the job table
  // -------------------------------------------------------------------------

  function Sum(order: seq<JobId>, jobs: map<JobId, Job>, w: Job -> int): int {
    if order == [] then 0
    else (if order[0] in jobs then w(jobs[order[0]]) else 0) + Sum(order[1..], jobs, w)
  }

  function W(st: JobState): Job -> int {
    (j: Job) => if j.state == st then 1 else 0
  }

  function WQ(q: QueueId, st: JobState): Job -> int {
    (j: Job) => if j.queue == q && j.state == st then 1 else 0
  }

  lemma {:induction false} SumOutside(order: seq<JobId>, jobs: map<JobId, Job>, id: JobId, j: Job, w: Job -> int)
    requires id !in order
    ensures Sum(order, jobs[id := j], w) == Sum(order, jobs, w)
  {
    if order != [] {
      assert order[0] in order;
      SumOutside(order[1..], jobs, id, j, w);
    }
  }

  // Replacing one job changes a sum by the difference of its weights.
  lemma {:induction false} SumUpdate(order: seq<JobId>, jobs: map<JobId, Job>, id: JobId, j: Job, w: Job -> int)
    requires Distinct(order) && id in order && id in jobs
    ensures Sum(order, jobs[id := j], w) == Sum(order, jobs, w) - w(jobs[id]) + w(j)
  {
    if order[0] == id {
      assert id !in order[1..];
      SumOutside(order[1..], jobs, id, j, w);
    } else {
      SumUpdate(order[1..], jobs, id, j, w);
    }
  }

  lemma {:induction false} SumAppend(order: seq<JobId>, jobs: map<JobId, Job>, id: JobId, w: Job -> int)
    requires id in jobs
    ensures Sum(order + [id], jobs, w) == Sum(order, jobs, w) + w(jobs[id])
  {
    if order == [] {
      assert order + [id] == [id];
    } else {
      assert (order + [id])[1..] == order[1..] + [id];
      SumAppend(order[1..], jobs, id, w);
    }
  }

  lemma {:induction false} SumWithout(order: seq<JobId>, jobs: map<JobId, Job>, id: JobId, w: Job -> int)
    requires Distinct(order) && id in jobs
    ensures Sum(Without(order, id), jobs - {id}, w) == Sum(order, jobs, w) - (if id in order then w(jobs[id]) else 0)
  {
    if order != [] {
      SumWithout(order[1..], jobs, id, w);
      if order[0] == id { assert id !in order[1..] && Without(order, id) == Without(order[1..], id); }
      else { assert Without(order, id)[1..] == Without(order[1..], id); }
    }
  }

  // A sum of zeros and ones is the number of jobs weighted one.
  lemma {:induction false} SumIsCount(order: seq<JobId>, jobs: map<JobId, Job>, w: Job -> int, ids: set<JobId>)
    requires Distinct(order) && forall id :: id in order ==> id in jobs
    requires forall id :: id in ids <==> id in order && w(jobs[id]) == 1
    requires forall id :: id in order ==> w(jobs[id]) == 0 || w(jobs[id]) == 1
    ensures Sum(order, jobs, w) == |ids|
  {
    if order == [] {
      assert ids == {};
    } else {
      var id := order[0];
      assert id in order && id !in order[1..];
      SumIsCount(order[1..], jobs, w, ids - {id});
      if id in ids { assert |ids| == |ids - {id}| + 1; } else { assert ids - {id} == ids; }
    }
  }

  // -------------------------------------------------------------------------
  // changeJobState
  // -------------------------------------------------------------------------

  // decrement_state and increment_state on one set of counters.
  function Left(x: Stats, st: JobState): Stats {
    x.Add(st, -1)
  }

  function Entered(x: Stats, st: JobState, started: bool): Stats {
    var y := x.Add(st, 1);
    // a job that was sent to its agent is no longer waiting for the agent's answer
    if started && (st == Running || st == Exited) then y.(startPending := y.startPending - 1) else y
  }

  function Recount(m: map<QueueId, Stats>, q: QueueId, st: JobState, q': QueueId, st': JobState, started: bool): (r: map<QueueId, Stats>)
    requires q in m && q' in m
    ensures r.Keys == m.Keys
  {
    var left := m[q := Left(m[q], st)];
    left[q' := Entered(left[q'], st', started)]
  }

  // The job record that comes out.
  function Changed(j: Job, st: JobState, q: Option<QueueId>, dirty: bool): Job {
    j.(state := st, queue := if q.Some? then q.value else j.queue, dirty := j.dirty || dirty)
  }

  function ChangeJobState(s: Server, id: JobId, st: JobState, q: Option<QueueId>, dirty: bool): Server
    requires Known(s, id) && (q.Some? ==> q.value in s.qstats)
  {
    var j := s.jobs[id];
    var j' := Changed(j, st, q, dirty);
    if j.state != st || q.Some? then
      s.(jobs := s.jobs[id := j'],
         stats := Entered(Left(s.stats, j.state), st, j.started),
         qstats := Recount(s.qstats, j.queue, j.state, j'.queue, st, j.started),
         recalc := s.recalc || st == Pending || st == Deferred || st == Holding)
    else s.(jobs := s.jobs[id := j'])
  }

  // All that changes besides the counters, and nothing else.
  lemma ChangeShape(s: Server, id: JobId, st: JobState, q: Option<QueueId>, dirty: bool)
    requires Known(s, id) && (q.Some? ==> q.value in s.qstats)
    ensures var s' := ChangeJobState(s, id, st, q, dirty);
            && s'.jobs == s.jobs[id := Changed(s.jobs[id], st, q, dirty)]
            && s' == s.(jobs := s'.jobs, stats := s'.stats, qstats := s'.qstats, recalc := s'.recalc)
            && s'.qstats.Keys == s.qstats.Keys
            && (s'.recalc <==> s.recalc || ((s.jobs[id].state != st || q.Some?) && st in {Pending, Deferred, Holding}))
  {
    hide Recount, Left, Entered, Changed;
  }
}
