/**
 The daemon as an object: one record of tables, the source's global `server`, changed in place step
 by step. Every method is proved to do what the step function of the same name does to the record, and
 every handler keeps the invariants of the tables, so that handlers can follow one another in any order.
 */
module Daemon {
  import opened Options
  import opened JobStates
  import opened Sequences
  import opened SchedState
  import opened SchedSteps
  import opened SchedDefer
  import opened SchedRun
  import opened SchedCounters
  import opened SchedPool

  // What holds of the tables between any two steps.
  ghost predicate Sound(s: Server) {
    BaseInv(s) && PoolInv(s) && Counted(s)
  }

  lemma StepSound(s: Server, e: Event)
    requires Sound(s) && MessageFits(s, e)
    ensures Sound(Apply(s, e))
  {
    hide BaseInv, PoolInv, Counted, Apply, MessageFits;
    StepBase(s, e);
    StepPool(s, e);
    StepCounted(s, e);
  }

  lemma SoundTable(s: Server)
    requires Sound(s)
    ensures TableInv(s) && BaseInv(s) && PoolInv(s) && Counted(s)
  {
  }

  class Tables {
    var server: Server

    ghost predicate Valid()
      reads this
    {
      Sound(server)
    }

    // A daemon that has loaded its queues and resources and has no jobs.
    constructor (s: Server)
      requires Initial(s)
      ensures Valid() && server == s
    {
      server := s;
      InitialBase(s);
      InitialCounted(s);
    }

    // -----------------------------------------------------------------------
    // changeJobState
    // -----------------------------------------------------------------------

    method DecrementState(id: JobId)
      requires Known(server, id)
      modifies this
      ensures var j := old(server).jobs[id];
              server == old(server).(stats := Left(old(server).stats, j.state),
                                     qstats := old(server).qstats[j.queue := Left(old(server).qstats[j.queue], j.state)])
    {
      var j := server.jobs[id];
      server := server.(stats := server.stats.Add(j.state, -1));
      server := server.(qstats := server.qstats[j.queue := server.qstats[j.queue].Add(j.state, -1)]);
    }

    method IncrementState(id: JobId)
      requires Known(server, id)
      modifies this
      ensures var j := old(server).jobs[id];
              server == old(server).(stats := Entered(old(server).stats, j.state, j.started),
                                     qstats := old(server).qstats[j.queue := Entered(old(server).qstats[j.queue], j.state, j.started)],
                                     recalc := old(server).recalc || j.state == Pending || j.state == Deferred || j.state == Holding)
    {
      var j := server.jobs[id];
      server := server.(stats := server.stats.Add(j.state, 1));
      server := server.(qstats := server.qstats[j.queue := server.qstats[j.queue].Add(j.state, 1)]);
      if j.state == Running || j.state == Exited {
        if j.started {
          server := server.(stats := server.stats.(startPending := server.stats.startPending - 1));
          server := server.(qstats := server.qstats[j.queue := server.qstats[j.queue].(startPending := server.qstats[j.queue].startPending - 1)]);
        }
      } else if j.state == Pending || j.state == Deferred || j.state == Holding {
        server := server.(recalc := true);
      }
    }

    // Take a job out of its state, and perhaps its queue, and put it into another.
    method MoveJob(id: JobId, st: JobState, q: Option<QueueId>)
      requires Known(server, id) && (q.Some? ==> q.value in server.queues && q.value in server.qstats)
      requires server.jobs[id].state != st || q.Some?
      modifies this
      ensures server == ChangeJobState(old(server), id, st, q, false)
    {
      hide Left, Entered, Recount, ChangeJobState;
      ghost var s := server;
      DecrementState(id);
      if q.Some? {
        server := server.(jobs := server.jobs[id := server.jobs[id].(queue := q.value)]);
      }
      server := server.(jobs := server.jobs[id := server.jobs[id].(state := st)]);
      assert server.jobs == s.jobs[id := Changed(s.jobs[id], st, q, false)];
      ghost var s1 := server;
      IncrementState(id);
      MoveIsChange(s, s1, server, id, st, q);
    }

    method ChangeState(id: JobId, st: JobState, q: Option<QueueId>, dirty: bool)
      requires Known(server, id) && (q.Some? ==> q.value in server.queues && q.value in server.qstats)
      modifies this
      ensures server == ChangeJobState(old(server), id, st, q, dirty)
    {
      hide ChangeJobState;
      UpdateIsChange(server, id, st, q, dirty);
      if server.jobs[id].state != st || q.Some? {
        MoveJob(id, st, q);
      }
      if dirty {
        server := server.(jobs := server.jobs[id := server.jobs[id].(dirty := true)]);
      } else {
        assert server.jobs == server.jobs[id := server.jobs[id]];
      }
    }

    // -----------------------------------------------------------------------
    // Resources
    // -----------------------------------------------------------------------

    // A need always names a resource of the table; one that does not is not available.
    method CheckRes(id: JobId) returns (available: bool)
      requires id in server.jobs
      ensures available == Available(server.resources, server.jobs[id].needs)
    {
      var needs := server.jobs[id].needs;
      for i := 0 to |needs|
        invariant forall k :: 0 <= k < i ==>
                    && needs[k].res in server.resources
                    && needs[k].needed <= server.resources[needs[k].res].count - server.resources[needs[k].res].inUse
      {
        if needs[i].res !in server.resources {
          return false;
        }
        var r := server.resources[needs[i].res];
        if needs[i].needed > r.count - r.inUse {
          return false;
        }
      }
      available := true;
    }

    method AllocateRes(id: JobId)
      requires id in server.jobs
      modifies this
      ensures server == old(server).(resources := Allocate(old(server).resources, old(server).jobs[id].needs))
    {
      ghost var all := server.resources;
      var needs := server.jobs[id].needs;
      for i := 0 to |needs|
        invariant server == old(server).(resources := server.resources)
        invariant Allocate(server.resources, needs[i..]) == Allocate(all, needs)
      {
        var n := needs[i];
        assert needs[i..][0] == n && needs[i..][1..] == needs[i + 1..];
        if n.res in server.resources {
          var r := server.resources[n.res];
          server := server.(resources := server.resources[n.res := r.(inUse := r.inUse + n.needed)]);
        }
      }
    }

    method DeallocateRes(id: JobId)
      requires id in server.jobs
      modifies this
      ensures server == NeedsReturned(old(server), id)
    {
      ghost var all := server.resources;
      var needs := server.jobs[id].needs;
      for i := 0 to |needs|
        invariant server == old(server).(resources := server.resources)
        invariant Deallocate(server.resources, needs[i..]) == Deallocate(all, needs)
      {
        var n := needs[i];
        assert needs[i..][0] == n && needs[i..][1..] == needs[i + 1..];
        if n.res in server.resources {
          ghost var before := server.resources;
          var r := server.resources[n.res];
          server := server.(resources := server.resources[n.res := r.(inUse := r.inUse - n.needed)]);
          if server.resources[n.res].inUse < 0 {
            server := server.(resources := server.resources[n.res := server.resources[n.res].(inUse := 0)]);
          }
          assert server.resources == Returned(before, n);
        }
      }
    }

    // -----------------------------------------------------------------------
    // Timers
    // -----------------------------------------------------------------------

    method RemoveDeferredJob(id: JobId)
      modifies this
      ensures server == old(server).(deferred := Without(old(server).deferred, id))
    {
      server := server.(deferred := Without(server.deferred, id));
    }

    method AddDeferredJob(id: JobId)
      requires id in server.jobs
      modifies this
      ensures server == old(server).(deferred := InsertInOrder(old(server).deferred, old(server).jobs, id))
    {
      server := server.(deferred := InsertInOrder(server.deferred, server.jobs, id));
    }

    method ReleaseDeferredJobs(now: int)
      requires Valid()
      modifies this
      ensures Valid() && server == ReleaseDeferred(old(server), now)
    {
      hide Sound, BaseInv, ReleaseDeferred;
      SoundTable(server);
      StepSound(server, ReleaseTimer(now));
      ReleaseInPlace(now);
    }

    method ReleaseInPlace(now: int)
      requires BaseInv(server)
      modifies this
      ensures server == ReleaseDeferred(old(server), now)
    {
      hide ChangeJobState, BaseInv, Known, ReleaseLoop, Released;
      ghost var s := server;
      var list, i := server.deferred, 0;
      while i < |list|
        invariant 0 <= i <= |list|
        invariant BaseInv(server) && server.deferred == list[i..]
        invariant ReleaseLoop(server, list[i..], now) == ReleaseLoop(s, list, now)
        invariant i > 0 ==> server.recalc
      {
        var id := list[i];
        ghost var s1 := server;
        ReleaseHead(server, now);
        if now < server.jobs[id].deferTime {
          break;
        }
        ReleasedInPlace(s1, id);
        ReleasedFirst(s1, id);
        server := server.(jobs := server.jobs[id := server.jobs[id].(deferTime := 0)]);
        ChangeState(id, Pending, None, false);
        RemoveDeferredJob(id);
        i := i + 1;
        assert list[i..] == s1.deferred[1..];
      }
      ReleaseEnds(server, list[i..], now);
      if i > 0 {
        server := server.(recalc := true);
      }
    }

    // -----------------------------------------------------------------------
    // The scheduler
    // -----------------------------------------------------------------------

    // The array is allocated for the number of waiting jobs before it is filled, and the counters are
    // right, so no job is written past its end.
    method GenerateCandidatePool()
      requires TableInv(server) && CounterFor(server, Pending) && CounterFor(server, Deferred) && CounterFor(server, Holding)
      modifies this
      ensures server == GeneratePool(old(server))
    {
      RebuildFits(server);
      hide CounterFor, Candidates, TableInv, PendingJobs;
      var total := server.stats.Get(Pending) + server.stats.Get(Deferred) + server.stats.Get(Holding);
      var size := server.poolSize;
      if size < total {
        size := total * 3 / 2;
      }
      var slots := CollectCandidates(size);
      server := server.(poolSize := size, pool := slots, recalc := false);
    }

    method CollectCandidates(size: int) returns (slots: seq<Option<JobId>>)
      requires TableInv(server) && |PendingJobs(server, server.order)| <= size
      ensures slots == Candidates(server)
    {
      if server.stats.Get(Pending) == 0 {
        return [];
      }
      var a := new JobId[size];
      var n := Gather(a);
      hide TableInv;
      ghost var sorted := Sorted(server, PendingJobs(server, server.order));
      SortedOrdered(server, PendingJobs(server, server.order));
      hide PendingJobs, Sorted;
      Qsort(server, a, n);
      OrderedPermutationIsUnique(server, a[..n], sorted);
      slots := Slots(a[..n]);
    }

    // Write every pending job that is not deleted into the array.
    method Gather(a: array<JobId>) returns (n: nat)
      requires TableInv(server) && |PendingJobs(server, server.order)| <= a.Length
      modifies a
      ensures n <= a.Length && a[..n] == PendingJobs(server, server.order)
    {
      ghost var found;
      n, found := GatherPending(a);
      FoundAll(server, found);
      WrittenAll(a, found);
    }

    method GatherPending(a: array<JobId>) returns (n: nat, ghost found: seq<JobId>)
      requires TableInv(server) && PendingTotal(server) <= a.Length
      modifies a
      ensures Found(server, |server.order|, found) && Written(a, found) && n == |found|
    {
      n, found := 0, [];
      FoundNone(server);
      assert Written(a, found);
      hide TableInv, Found, Written, PendingTotal;
      for i := 0 to |server.order|
        invariant Found(server, i, found) && Written(a, found) && n == |found|
      {
        var id := server.order[i];
        FoundNext(server, i, found);
        InTable(server, id);
        if server.jobs[id].deleted {
          continue;
        }
        if server.jobs[id].state != Pending {
          continue;
        }
        WriteNext(a, n, id, found);
        n := n + 1;
        found := found + [id];
      }
    }

    method RefreshPool()
      requires BaseInv(server) && PoolInv(server)
      requires CounterFor(server, Pending) && CounterFor(server, Deferred) && CounterFor(server, Holding)
      modifies this
      ensures server == (if old(server).recalc then GeneratePool(old(server)) else old(server)) && SlotsKnown(server)
    {
      assert TableInv(server);
      if server.recalc {
        RebuildPool(server);
        GenerateShape(server);
        hide BaseInv, PoolInv, CounterFor, GeneratePool;
        GenerateCandidatePool();
      }
      SlotsAreKnown(server);
    }

    // One schedule pass.
    method Schedule()
      requires Valid()
      modifies this
      ensures Valid() && server == CheckJobs(old(server))
    {
      hide Sound, CheckJobs, BaseInv, PoolInv, Counted, CounterFor;
      SoundTable(server);
      StepSound(server, ScheduleTimer);
      WaitingCounted(server);
      SchedulePass();
    }

    method SchedulePass()
      requires BaseInv(server) && PoolInv(server)
      requires CounterFor(server, Pending) && CounterFor(server, Deferred) && CounterFor(server, Holding)
      modifies this
      ensures server == CheckJobs(old(server))
    {
      hide BaseInv, PoolInv, CounterFor, GeneratePool, PassFrom, SlotsKnown;
      if server.maxRun != UNLIMITED_JOBS && server.stats.Get(Running) >= server.maxRun {
        return;
      }
      RefreshPool();
      var jobsToStart := |server.pool|;
      if server.maxRun != UNLIMITED_JOBS && jobsToStart > server.maxRun - server.stats.Get(Running) {
        jobsToStart := server.maxRun - server.stats.Get(Running);
      }
      if server.readonly {
        return;
      }
      StartCandidates(jobsToStart);
    }

    // Walk the pool and send every job that passes the tests, up to a number of starts.
    method StartCandidates(jobsToStart: int)
      requires SlotsKnown(server)
      modifies this
      ensures server == PassFrom(old(server), 0, jobsToStart)
    {
      hide Start, Known, PassFrom, Startable;
      ghost var s := server;
      var i, started := 0, 0;
      while i < |server.pool|
        invariant 0 <= i <= |server.pool| && SlotsKnown(server)
        invariant PassFrom(server, i, jobsToStart - started) == PassFrom(s, 0, jobsToStart)
        decreases |server.pool| - i
      {
        var can := TestSlot(server.pool[i]);
        PassStep(server, i, jobsToStart - started);
        if can {
          StartSlotsKnown(server, server.pool[i]);
          SendStart(server.pool[i].value);
          started := started + 1;
          if started >= jobsToStart {
            return;
          }
        }
        i := i + 1;
      }
      PassEnds(server, i, jobsToStart - started);
    }

    // The tests a job in the pool has to pass before it is started.
    method TestSlot(slot: Option<JobId>) returns (can: bool)
      requires slot.Some? ==> Known(server, slot.value)
      ensures can == Startable(server, slot)
    {
      if slot.None? {
        return false;
      }
      var j := server.jobs[slot.value];
      if j.state != Pending || j.started {
        return false;
      }
      if server.maxRun != UNLIMITED_JOBS && server.stats.Get(Running) + server.stats.startPending > server.maxRun {
        return false;
      }
      var q, qs := server.queues[j.queue], server.qstats[j.queue];
      if qs.Get(Running) + qs.startPending >= q.limit {
        return false;
      }
      if |j.needs| > 0 {
        var available := CheckRes(slot.value);
        if !available {
          return false;
        }
      }
      if !q.started {
        return false;
      }
      if q.agent.None? || q.agent.value !in server.agents || !server.agents[q.agent.value].loggedIn {
        return false;
      }
      if server.agents[q.agent.value].recon {
        return false;
      }
      can := true;
    }

    method SendStart(id: JobId)
      requires Known(server, id)
      modifies this
      ensures server == Start(old(server), id)
    {
      var j := server.jobs[id];
      if |j.needs| > 0 {
        AllocateRes(id);
      }
      server := server.(jobs := server.jobs[id := j.(started := true)]);
      server := server.(qstats := server.qstats[j.queue := server.qstats[j.queue].(startPending := server.qstats[j.queue].startPending + 1)]);
      server := server.(stats := server.stats.(startPending := server.stats.startPending + 1));
    }

    // -----------------------------------------------------------------------
    // User commands
    // -----------------------------------------------------------------------

    method SubmitJob(id: JobId, r: Request) returns (ok: bool)
      requires Valid()
      modifies this
      ensures Valid() && server == AddJob(old(server), id, r) && ok == !AddRefused(old(server), id, r)
    {
      StepSound(server, Add(id, r));
      hide Sound, ChangeJobState;
      if id in server.jobs || r.queue !in server.queues || r.queue !in server.qstats || !AllExist(server.resources, r.needs) {
        return false;
      }
      var j := Job(r.queue, NoState, false, false, false, false, r.deferTime, r.priority, r.needs);
      server := server.(jobs := server.jobs[id := j], order := server.order + [id]);
      if r.deferTime != 0 {
        AddDeferredJob(id);
      }
      ChangeState(id, if r.deferTime != 0 then Deferred else if r.hold then Holding else Pending, None, true);
      ok := true;
    }

    method SetPriority(id: JobId, p: Option<int>) returns (dirty: bool)
      requires id in server.jobs
      modifies this
      ensures server == WithPriority(old(server), id, p) && dirty == p.Some?
    {
      assert server.jobs == server.jobs[id := server.jobs[id]];
      dirty := false;
      if p.Some? {
        server := server.(jobs := server.jobs[id := server.jobs[id].(priority := p.value)]);
        dirty := true;
      }
    }

    method SetDefer(id: JobId, time: Option<int>) returns (dirty: bool)
      requires id in server.jobs
      modifies this
      ensures server == WithDefer(old(server), id, time) && dirty == time.Some?
    {
      hide Without, InsertInOrder;
      assert server.jobs == server.jobs[id := server.jobs[id]];
      dirty := false;
      if time.Some? {
        if server.jobs[id].deferTime != 0 {
          RemoveDeferredJob(id);
        }
        server := server.(jobs := server.jobs[id := server.jobs[id].(deferTime := time.value)]);
        if time.value != 0 {
          AddDeferredJob(id);
        }
        dirty := true;
      }
    }

    method SetNeeds(id: JobId, needs: Option<seq<Need>>) returns (dirty: bool)
      requires id in server.jobs
      modifies this
      ensures server == WithNeeds(old(server), id, needs)
      ensures dirty == (needs.Some? && (old(server).jobs[id].needs != [] || needs.value != []))
    {
      var j := server.jobs[id];
      dirty := false;
      if needs.Some? {
        if j.needs != [] {
          j := j.(needs := []);
          dirty := true;
        }
        if needs.value != [] {
          j := j.(needs := needs.value);
          dirty := true;
        }
      }
      server := server.(jobs := server.jobs[id := j]);
    }

    // Everything a modification sets before the state is settled.
    method EditJob(id: JobId, m: Mod) returns (dirty: bool)
      requires Known(server, id)
      modifies this
      ensures server == ModEdited(old(server), id, m)
      ensures dirty == (m.priority.Some? || m.deferTime.Some? || (m.needs.Some? && (old(server).jobs[id].needs != [] || m.needs.value != [])))
    {
      hide WithPriority, WithDefer, WithNeeds, ModEdited, Deallocate;
      EditsAddUp(server, id, m);
      if m.restart && server.jobs[id].state == Unknown {
        DeallocateRes(id);
      }
      var byPriority := SetPriority(id, m.priority);
      var byDefer := SetDefer(id, m.deferTime);
      var byNeeds := SetNeeds(id, m.needs);
      dirty := byPriority || byDefer || byNeeds;
    }

    method ModifyJob(id: JobId, m: Mod) returns (ok: bool)
      requires Valid()
      modifies this
      ensures Valid() && server == ModJob(old(server), id, m) && ok == !ModRefused(old(server), id, m)
    {
      hide Sound, ModJob;
      StepSound(server, Modify(id, m));
      ok := ModifyInPlace(id, m);
    }

    method ModifyInPlace(id: JobId, m: Mod) returns (ok: bool)
      modifies this
      ensures server == ModJob(old(server), id, m) && ok == !ModRefused(old(server), id, m)
    {
      hide ChangeJobState, ModEdited;
      if !Known(server, id) || server.jobs[id].deleted {
        return false;
      }
      var j := server.jobs[id];
      var state, hold := j.state, j.state == Holding;
      var completed := j.state == Completed || j.state == Exited || j.state == Unknown;
      if completed && !m.restart && (m.deferTime.Some? || m.hold.Some?) {
        return false;
      }
      if j.state == Running || j.started {
        return false;
      }
      if m.priority.Some? && (m.priority.value < MIN_PRIORITY || m.priority.value > MAX_PRIORITY) {
        return false;
      }
      if m.queue.Some? && !(m.queue.value in server.queues && m.queue.value in server.qstats) {
        return false;
      }
      if m.needs.Some? && !AllExist(server.resources, m.needs.value) {
        return false;
      }
      EditedKnown(server, id, m);
      var dirty := EditJob(id, m);
      if m.hold.Some? {
        hold := m.hold.value;
        dirty := true;
      }
      if completed && m.restart {
        completed := false;
        dirty := true;
      }
      if server.jobs[id].deferTime != 0 {
        state := Deferred;
      } else if hold {
        state := Holding;
      } else if !completed {
        state := Pending;
      }
      if m.queue.Some? || state != server.jobs[id].state {
        dirty := true;
      }
      ChangeState(id, state, m.queue, dirty);
      ok := true;
    }

    method RemoveJob(id: JobId) returns (ok: bool)
      requires Valid()
      modifies this
      ensures Valid() && server == DeleteJob(old(server), id)
      ensures ok == (id in old(server).jobs && Known(old(server), id) && !old(server).jobs[id].deleted)
    {
      hide Sound, DeleteJob;
      StepSound(server, Delete(id));
      ok := DeleteInPlace(id);
    }

    method DeleteInPlace(id: JobId) returns (ok: bool)
      modifies this
      ensures server == DeleteJob(old(server), id)
      ensures ok == (id in old(server).jobs && Known(old(server), id) && !old(server).jobs[id].deleted)
    {
      hide ChangeJobState;
      if !Known(server, id) || server.jobs[id].deleted {
        return false;
      }
      ghost var s := server;
      server := server.(jobs := server.jobs[id := server.jobs[id].(deleted := true)]);
      ChangeCommutes(server, id, NoState, None, false, DeleteMarked(s, id).deferred, server.resources, server.deletedJobs + 1);
      ChangeShape(server, id, NoState, None, false);
      ChangeState(id, NoState, None, false);
      if server.jobs[id].deferTime != 0 {
        RemoveDeferredJob(id);
      }
      server := server.(deletedJobs := server.deletedJobs + 1);
      ok := true;
    }

    // A signal for a job whose agent is gone ends it.
    method SignalJob(id: JobId)
      requires Valid()
      modifies this
      ensures Valid() && server == SignalUnknown(old(server), id)
    {
      StepSound(server, Signal(id));
      hide Sound, ChangeJobState, Deallocate;
      if !Known(server, id) || server.jobs[id].deleted || server.jobs[id].state != Unknown {
        return;
      }
      ghost var s := server;
      ChangeCommutes(server, id, Exited, None, true, server.deferred, NeedsReturned(s, id).resources, server.deletedJobs);
      ChangeShape(server, id, Exited, None, true);
      ChangeState(id, Exited, None, true);
      DeallocateRes(id);
    }

    // -----------------------------------------------------------------------
    // Agent messages
    // -----------------------------------------------------------------------

    method JobStart(id: JobId)
      requires Valid() && MessageFits(server, StartedMsg(id))
      modifies this
      ensures Valid() && server == JobStarted(old(server), id)
    {
      hide Sound, JobStarted, TableInv;
      SoundTable(server);
      StepSound(server, StartedMsg(id));
      StartInPlace(id);
    }

    method StartInPlace(id: JobId)
      requires TableInv(server)
      modifies this
      ensures server == JobStarted(old(server), id)
    {
      hide ChangeJobState, TableInv;
      if id !in server.jobs {
        return;
      }
      InTable(server, id);
      ChangeShape(server, id, Running, None, true);
      ChangeState(id, Running, None, true);
      server := server.(jobs := server.jobs[id := server.jobs[id].(started := false)]);
    }

    method JobEnd(id: JobId, failed: bool)
      requires Valid()
      modifies this
      ensures Valid() && server == JobCompleted(old(server), id, failed)
    {
      hide Sound, JobCompleted, TableInv;
      SoundTable(server);
      StepSound(server, CompletedMsg(id, failed));
      EndInPlace(id, failed);
    }

    method EndInPlace(id: JobId, failed: bool)
      requires TableInv(server)
      modifies this
      ensures server == JobCompleted(old(server), id, failed)
    {
      hide ChangeJobState, TableInv, Deallocate;
      if id !in server.jobs {
        return;
      }
      InTable(server, id);
      DeallocateRes(id);
      ChangeShape(server, id, FinalState(failed), None, true);
      ChangeState(id, if failed then Exited else Completed, None, true);
      assert server.jobs == server.jobs[id := server.jobs[id]];
      if server.jobs[id].started {
        server := server.(jobs := server.jobs[id := server.jobs[id].(started := false)]);
      }
    }

    // A recon is worked through item by item; one that names a job missing from the table stops the
    // daemon.
    method ReconMessage(a: AgentId, items: seq<ReconItem>) returns (died: bool)
      requires Valid() && MessageFits(server, ReconMsg(a, items))
      modifies this
      ensures died <==> exists i :: 0 <= i < |items| && items[i].id !in old(server).jobs
      ensures !died ==> Valid() && server == Recon(old(server), a, items)
    {
      hide Sound, Recon, TableInv;
      SoundTable(server);
      StepSound(server, ReconMsg(a, items));
      died := ReconInPlace(a, items);
    }

    method ReconInPlace(a: AgentId, items: seq<ReconItem>) returns (died: bool)
      requires TableInv(server)
      modifies this
      ensures died <==> exists i :: 0 <= i < |items| && items[i].id !in old(server).jobs
      ensures !died ==> server == Recon(old(server), a, items)
    {
      hide ChangeJobState, TableInv, ReconOne, ReconLoop;
      ghost var s := server;
      assert items[0..] == items;
      for i := 0 to |items|
        invariant TableInv(server) && server.jobs.Keys == s.jobs.Keys
        invariant forall k :: 0 <= k < i ==> items[k].id in s.jobs
        invariant ReconLoop(server, items[i..]) == ReconLoop(s, items)
      {
        assert items[i].id in s.jobs.Keys <==> items[i].id in server.jobs.Keys;
        if items[i].id !in server.jobs {
          return true;
        }
        ReconStep(server, items[i..]);
        assert items[i..][0] == items[i] && items[i..][1..] == items[i + 1..];
        match items[i] {
          case Ended(id, failed) => ChangeState(id, if failed then Exited else Completed, None, true);
          case Alive(id) => ChangeState(id, Running, None, false);
          case NotKnown(_) =>
        }
      }
      ReconDone(server);
      if a in server.agents {
        server := server.(agents := server.agents[a := server.agents[a].(recon := false)]);
      }
      died := false;
    }

    // The agent's connection is gone.
    method AgentLost(a: AgentId)
      requires Valid()
      modifies this
      ensures Valid() && server == Disconnect(old(server), a)
    {
      hide Sound, UnknownLoop, TableInv;
      SoundTable(server);
      StepSound(server, AgentGone(a));
      MarkJobsUnknown(a);
      var recon := a in server.agents && server.agents[a].recon;
      server := server.(agents := server.agents[a := Agent(false, recon)],
                        queues := map q | q in server.queues ::
                                    if server.queues[q].agent == Some(a) then server.queues[q].(agent := None, started := false) else server.queues[q]);
    }

    method MarkJobsUnknown(a: AgentId)
      requires TableInv(server)
      modifies this
      ensures server == UnknownLoop(old(server), old(server).order, a)
    {
      hide ChangeJobState, TableInv, UnknownLoop;
      ghost var s := server;
      var order := server.order;
      assert order[0..] == order;
      for i := 0 to |order|
        invariant TableInv(server) && server.order == order
        invariant UnknownLoop(server, order[i..], a) == UnknownLoop(s, order, a)
      {
        var id := order[i];
        UnknownStep(server, order[i..], a);
        assert order[i..][0] == id && order[i..][1..] == order[i + 1..];
        InTable(server, id);
        var j := server.jobs[id];
        if server.queues[j.queue].agent == Some(a) && (j.state == Running || j.started) {
          server := server.(jobs := server.jobs[id := j.(started := false, deleted := false, flushing := false)]);
          ChangeState(id, Unknown, None, true);
        }
      }
      UnknownDone(server, a);
    }

    // -----------------------------------------------------------------------
    // Removal
    // -----------------------------------------------------------------------

    // Remove one deleted job unless it still has to be saved; true if it was refused.
    method CleanupOne(id: JobId) returns (refused: bool)
      requires Valid() && id in server.jobs && server.jobs[id].deleted
      modifies this
      ensures Valid() && server == CleanupJob(old(server), id)
      ensures refused == (old(server).jobs[id].dirty || old(server).jobs[id].flushing)
    {
      StepSound(server, Cleanup(id));
      hide Sound, Without, ClearSlots;
      if server.jobs[id].dirty || server.jobs[id].flushing {
        return true;
      }
      server := server.(jobs := server.jobs - {id}, order := Without(server.order, id));
      ClearPoolSlot(id);
      server := server.(deletedJobs := server.deletedJobs - 1);
      refused := false;
    }

    // Take a removed job out of the pool.
    method ClearPoolSlot(id: JobId)
      modifies this
      ensures server == old(server).(pool := ClearSlots(old(server).pool, id))
    {
      ghost var pool := server.pool;
      assert pool[..0] + ClearSlots(pool[0..], id) == ClearSlots(pool, id);
      var i := 0;
      while i < |server.pool|
        invariant 0 <= i <= |server.pool| && server == old(server)
        invariant ClearSlots(pool, id) == pool[..i] + ClearSlots(pool[i..], id)
      {
        ClearedStep(pool, id, i);
        if server.pool[i] == Some(id) {
          server := server.(pool := server.pool[i := None]);
          break;
        }
        i := i + 1;
      }
    }
  }

  lemma WaitingCounted(s: Server)
    requires Counted(s)
    ensures CounterFor(s, Pending) && CounterFor(s, Deferred) && CounterFor(s, Holding)
  {
    assert Tally(s, Pending, 0) && Tally(s, Deferred, 0) && Tally(s, Holding, 0);
  }

  lemma MoveIsChange(s: Server, s1: Server, t: Server, id: JobId, st: JobState, q: Option<QueueId>)
    requires Known(s, id) && (q.Some? ==> q.value in s.queues && q.value in s.qstats) && (s.jobs[id].state != st || q.Some?)
    requires var j := s.jobs[id];
             && s1 == s.(stats := Left(s.stats, j.state), qstats := s.qstats[j.queue := Left(s.qstats[j.queue], j.state)],
                         jobs := s.jobs[id := Changed(j, st, q, false)])
             && t == s1.(stats := Entered(s1.stats, st, j.started),
                         qstats := s1.qstats[s1.jobs[id].queue := Entered(s1.qstats[s1.jobs[id].queue], st, j.started)],
                         recalc := s1.recalc || st == Pending || st == Deferred || st == Holding)
    ensures t == ChangeJobState(s, id, st, q, false)
  {
    hide Left, Entered;
  }

  lemma UpdateIsChange(s: Server, id: JobId, st: JobState, q: Option<QueueId>, dirty: bool)
    requires Known(s, id) && (q.Some? ==> q.value in s.queues && q.value in s.qstats)
    ensures var s1 := if s.jobs[id].state != st || q.Some? then ChangeJobState(s, id, st, q, false) else s;
            && id in s1.jobs
            && ChangeJobState(s, id, st, q, dirty) == s1.(jobs := s1.jobs[id := s1.jobs[id].(dirty := s1.jobs[id].dirty || dirty)])
  {
    hide Left, Entered, Recount;
  }

  // The head of the list is in the table; it is released, or nothing is.
  lemma ReleaseHead(s: Server, now: int)
    requires BaseInv(s) && s.deferred != []
    ensures Known(s, s.deferred[0]) && s.deferred[0] in s.jobs
    ensures now < s.jobs[s.deferred[0]].deferTime ==> ReleaseLoop(s, s.deferred, now) == s
    ensures now >= s.jobs[s.deferred[0]].deferTime ==>
              ReleaseLoop(s, s.deferred, now) == ReleaseLoop(Released(s, s.deferred[0]), s.deferred[1..], now)
  {
    assert s.deferred[0] in s.deferred;
  }

  lemma ReleaseEnds(s: Server, list: seq<JobId>, now: int)
    ensures list == [] ==> ReleaseLoop(s, list, now) == s
  {
  }

  // Clearing the time, changing the state and unlinking give the released job.
  lemma ReleasedInPlace(s: Server, id: JobId)
    requires BaseInv(s) && id in s.deferred && Known(s, id)
    ensures var s1 := s.(jobs := s.jobs[id := s.jobs[id].(deferTime := 0)]);
            && Known(s1, id)
            && var s2 := ChangeJobState(s1, id, Pending, None, false);
               s2.(deferred := Without(s2.deferred, id)) == Released(s, id) && s2.recalc
  {
    assert Listed(s.jobs[id]) && JobOk(s.jobs[id]);
    hide Recount, Left, Entered;
  }

  // -------------------------------------------------------------------------
  // The pool
  // -------------------------------------------------------------------------

  // The library sort, of which the source relies only on this: an ordered permutation.
  method Qsort(s: Server, a: array<JobId>, n: nat)
    requires n <= a.Length && forall x :: x in a[..n] ==> Known(s, x)
    modifies a
    ensures multiset(a[..n]) == multiset(old(a[..n]))
    ensures (forall x :: x in a[..n] ==> Known(s, x)) && InPoolOrder(s, a[..n])
  {
    var sorted := Sorted(s, a[..n]);
    SortedOrdered(s, a[..n]);
    hide Known, InPoolOrder, Sorted;
    for i := 0 to n
      invariant forall k :: 0 <= k < i ==> a[k] == sorted[k]
    {
      a[i] := sorted[i];
    }
    assert a[..n] == sorted;
  }

  lemma {:induction false} PendingConcat(s: Server, a: seq<JobId>, b: seq<JobId>)
    ensures PendingJobs(s, a + b) == PendingJobs(s, a) + PendingJobs(s, b)
  {
    if a == [] {
      assert a + b == b;
    } else {
      assert (a + b)[1..] == a[1..] + b;
      PendingConcat(s, a[1..], b);
    }
  }

  lemma PendingNone(s: Server, list: seq<JobId>)
    ensures list == [] ==> PendingJobs(s, list) == []
  {
  }

  // One more job of the table, and room for it.
  // The array starts with the given jobs.
  ghost predicate Written(a: array<JobId>, found: seq<JobId>)
    reads a
  {
    |found| <= a.Length && forall k :: 0 <= k < |found| ==> a[k] == found[k]
  }

  method WriteNext(a: array<JobId>, n: nat, id: JobId, ghost found: seq<JobId>)
    requires Written(a, found) && n == |found| < a.Length
    modifies a
    ensures Written(a, found + [id])
  {
    a[n] := id;
  }

  lemma WrittenAll(a: array<JobId>, found: seq<JobId>)
    requires Written(a, found)
    ensures |found| <= a.Length && a[..|found|] == found
  {
  }

  // The jobs gathered from the first i of the table.
  ghost predicate Found(s: Server, i: nat, found: seq<JobId>) {
    i <= |s.order| && found == PendingJobs(s, s.order[..i])
  }

  function PendingTotal(s: Server): nat {
    |PendingJobs(s, s.order)|
  }

  lemma FoundNone(s: Server)
    ensures Found(s, 0, [])
  {
    PendingNone(s, s.order[..0]);
  }

  lemma FoundNext(s: Server, i: nat, found: seq<JobId>)
    requires i < |s.order| && Found(s, i, found)
    ensures var id := s.order[i];
            if Known(s, id) && !s.jobs[id].deleted && s.jobs[id].state == Pending
            then Found(s, i + 1, found + [id]) && |found| < PendingTotal(s) else Found(s, i + 1, found)
  {
    PendingNext(s, s.order, i);
    hide PendingJobs;
    assert found + [] == found;
  }

  lemma FoundAll(s: Server, found: seq<JobId>)
    requires Found(s, |s.order|, found)
    ensures found == PendingJobs(s, s.order)
  {
    assert s.order[..|s.order|] == s.order;
  }

  lemma PendingNext(s: Server, list: seq<JobId>, i: nat)
    requires i < |list|
    ensures var id := list[i];
            var more := if Known(s, id) && !s.jobs[id].deleted && s.jobs[id].state == Pending then [id] else [];
            && PendingJobs(s, list[..i + 1]) == PendingJobs(s, list[..i]) + more
            && |PendingJobs(s, list[..i])| + |more| <= |PendingJobs(s, list)|
  {
    assert list[..i + 1] == list[..i] + [list[i]] && list == list[..i + 1] + list[i + 1..];
    assert PendingJobs(s, [list[i]][1..]) == [];
    PendingConcat(s, list[..i], [list[i]]);
    PendingConcat(s, list[..i + 1], list[i + 1..]);
  }

  // -------------------------------------------------------------------------
  // The pass
  // -------------------------------------------------------------------------

  predicate SlotsKnown(s: Server) {
    forall i :: 0 <= i < |s.pool| && s.pool[i].Some? ==> Known(s, s.pool[i].value)
  }

  lemma SlotsAreKnown(s: Server)
    requires TableInv(s) && PoolInv(s)
    ensures SlotsKnown(s)
  {
  }

  lemma StartSlotsKnown(s: Server, slot: Option<JobId>)
    requires SlotsKnown(s) && Startable(s, slot)
    ensures slot.Some? && Known(s, slot.value) && SlotsKnown(Start(s, slot.value)) && Start(s, slot.value).pool == s.pool
  {
  }

  lemma PassStep(s: Server, i: nat, quota: int)
    requires i < |s.pool|
    ensures Startable(s, s.pool[i]) ==>
              && s.pool[i].Some? && Known(s, s.pool[i].value)
              && PassFrom(s, i, quota) == if quota <= 1 then Start(s, s.pool[i].value)
                                          else PassFrom(Start(s, s.pool[i].value), i + 1, quota - 1)
    ensures !Startable(s, s.pool[i]) ==> PassFrom(s, i, quota) == PassFrom(s, i + 1, quota)
  {
    hide Start;
  }

  lemma PassEnds(s: Server, i: nat, quota: int)
    requires i >= |s.pool|
    ensures PassFrom(s, i, quota) == s
  {
  }

  // -------------------------------------------------------------------------
  // Editing
  // -------------------------------------------------------------------------

  function WithPriority(s: Server, id: JobId, p: Option<int>): Server
    requires id in s.jobs
  {
    s.(jobs := s.jobs[id := s.jobs[id].(priority := OrElse(p, s.jobs[id].priority))])
  }

  function WithDefer(s: Server, id: JobId, time: Option<int>): Server
    requires id in s.jobs
  {
    var jobs := s.jobs[id := s.jobs[id].(deferTime := OrElse(time, s.jobs[id].deferTime))];
    s.(jobs := jobs, deferred := ModList(s.deferred, jobs, id, s.jobs[id].deferTime, time))
  }

  function WithNeeds(s: Server, id: JobId, needs: Option<seq<Need>>): Server
    requires id in s.jobs
  {
    s.(jobs := s.jobs[id := s.jobs[id].(needs := OrElse(needs, s.jobs[id].needs))])
  }

  // The place in the deferred list depends on nothing but the times.
  lemma {:induction false} InsertSameTimes(list: seq<JobId>, jobs: map<JobId, Job>, id: JobId, j: Job)
    requires id in jobs && j.deferTime == jobs[id].deferTime
    ensures InsertInOrder(list, jobs[id := j], id) == InsertInOrder(list, jobs, id)
  {
    if list != [] { InsertSameTimes(list[1..], jobs, id, j); }
  }

  lemma EditsAddUp(s: Server, id: JobId, m: Mod)
    requires id in s.jobs
    ensures var s1 := if m.restart && s.jobs[id].state == Unknown then NeedsReturned(s, id) else s;
            && s1.jobs == s.jobs && id in WithPriority(s1, id, m.priority).jobs
            && var s3 := WithDefer(WithPriority(s1, id, m.priority), id, m.deferTime);
               id in s3.jobs && s3.jobs[id].needs == s.jobs[id].needs && WithNeeds(s3, id, m.needs) == ModEdited(s, id, m)
  {
    hide Deallocate, ModList;
    var s1 := if m.restart && s.jobs[id].state == Unknown then NeedsReturned(s, id) else s;
    var s2 := WithPriority(s1, id, m.priority);
    var s3 := WithDefer(s2, id, m.deferTime);
    var t := ModEdited(s, id, m);
    Overwrite(s.jobs, id, s2.jobs[id], s3.jobs[id]);
    Overwrite(s.jobs, id, s3.jobs[id], t.jobs[id]);
    EditedList(s.deferred, s3.jobs, id, t.jobs[id], s.jobs[id].deferTime, m.deferTime);
  }

  lemma Overwrite(jobs: map<JobId, Job>, id: JobId, a: Job, b: Job)
    ensures jobs[id := a][id := b] == jobs[id := b]
  {
  }

  lemma EditedList(list: seq<JobId>, jobs: map<JobId, Job>, id: JobId, j: Job, was: int, now: Option<int>)
    requires id in jobs && j.deferTime == jobs[id].deferTime
    ensures ModList(list, jobs[id := j], id, was, now) == ModList(list, jobs, id, was, now)
  {
    InsertSameTimes(if was != 0 then Without(list, id) else list, jobs, id, j);
  }

  lemma EditedKnown(s: Server, id: JobId, m: Mod)
    requires Known(s, id)
    ensures var t := ModEdited(s, id, m);
            && Known(t, id) && t.jobs[id].state == s.jobs[id].state && t.jobs[id].deferTime == OrElse(m.deferTime, s.jobs[id].deferTime)
            && t.queues == s.queues && t.qstats == s.qstats
  {
  }

  // A change of state and a change of what it does not look at can be swapped.
  lemma ChangeCommutes(s: Server, id: JobId, st: JobState, q: Option<QueueId>, dirty: bool, deferred: seq<JobId>,
                       resources: map<ResId, Resource>, deletedJobs: int)
    requires Known(s, id) && (q.Some? ==> q.value in s.qstats)
    ensures var s1 := s.(deferred := deferred, resources := resources, deletedJobs := deletedJobs);
            && Known(s1, id)
            && ChangeJobState(s1, id, st, q, dirty)
               == ChangeJobState(s, id, st, q, dirty).(deferred := deferred, resources := resources, deletedJobs := deletedJobs)
  {
    hide Recount, Left, Entered, Changed;
  }

  lemma InTable(s: Server, id: JobId)
    requires TableInv(s) && (id in s.jobs || id in s.order)
    ensures Known(s, id)
  {
  }

  // -------------------------------------------------------------------------
  // Loops over jobs
  // -------------------------------------------------------------------------

  lemma ReconStep(s: Server, items: seq<ReconItem>)
    requires TableInv(s) && items != [] && items[0].id in s.jobs
    ensures Known(s, items[0].id)
    ensures var item := items[0];
            var t := match item
                     case Ended(id, failed) => ChangeJobState(s, id, FinalState(failed), None, true)
                     case Alive(id) => ChangeJobState(s, id, Running, None, false)
                     case NotKnown(_) => s;
            TableInv(t) && t.jobs.Keys == s.jobs.Keys && ReconLoop(s, items) == ReconLoop(t, items[1..])
  {
    var item := items[0];
    if !item.NotKnown? {
      ChangeKeepsTable(s, item.id, if item.Ended? then FinalState(item.failed) else Running, None, item.Ended?);
      ChangeShape(s, item.id, if item.Ended? then FinalState(item.failed) else Running, None, item.Ended?);
    }
    hide ChangeJobState, TableInv;
  }

  lemma ReconDone(s: Server)
    ensures ReconLoop(s, []) == s
  {
  }

  lemma UnknownStep(s: Server, list: seq<JobId>, a: AgentId)
    requires TableInv(s) && list != []
    ensures RunsOn(s, list[0], a) ==>
              && TableInv(UnknownOne(s, list[0])) && UnknownOne(s, list[0]).order == s.order
              && UnknownLoop(s, list, a) == UnknownLoop(UnknownOne(s, list[0]), list[1..], a)
    ensures !RunsOn(s, list[0], a) ==> UnknownLoop(s, list, a) == UnknownLoop(s, list[1..], a)
  {
    if RunsOn(s, list[0], a) {
      var s1 := FlagsCleared(s, list[0]);
      EditsTable(s, s1, list[0]);
      ChangeKeepsTable(s1, list[0], Unknown, None, true);
      ChangeShape(s1, list[0], Unknown, None, true);
    }
    hide ChangeJobState, TableInv;
  }

  lemma ClearedStep(pool: seq<Option<JobId>>, id: JobId, i: nat)
    requires i < |pool|
    ensures pool[i] == Some(id) ==> pool[..i] + ClearSlots(pool[i..], id) == pool[i := None]
    ensures pool[i] != Some(id) ==> pool[..i] + ClearSlots(pool[i..], id) == pool[..i + 1] + ClearSlots(pool[i + 1..], id)
  {
    assert pool[i..][0] == pool[i] && pool[i..][1..] == pool[i + 1..];
  }

  lemma UnknownDone(s: Server, a: AgentId)
    ensures UnknownLoop(s, [], a) == s
  {
  }
}
