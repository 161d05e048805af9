/**
 Which jobs a schedule pass sends: what must hold of a job, its queue, its agent and its resources for it to
 be sent, that a job of which all of it holds is not left behind, and which job is sent first.
 */
module SchedStarts {
  import opened Options
  import opened JobStates
  import opened SchedState
  import opened SchedSteps
  import opened SchedRun
  import opened SchedCounters
  import opened SchedPool
  import opened SchedPass
  import opened SchedOrder

  // The job waits, and has not been sent.
  predicate Waits(s: Server, id: JobId) {
    id in s.jobs && s.jobs[id].state == Pending && !s.jobs[id].started
  }

  // Its queue is open and below its limit, and the system has room.
  predicate HasRoom(s: Server, id: JobId) {
    id in s.jobs &&
    var q := s.jobs[id].queue;
    && q in s.queues && q in s.qstats && s.queues[q].started
    && s.qstats[q].Get(Running) + s.qstats[q].startPending < s.queues[q].limit
    && (s.maxRun == -1 || s.stats.Get(Running) + s.stats.startPending <= s.maxRun)
  }

  // The agent of its queue is logged in, and what it had listed has been reconciled.
  predicate AgentTakes(s: Server, id: JobId) {
    id in s.jobs && s.jobs[id].queue in s.queues &&
    exists a :: a in s.agents && s.queues[s.jobs[id].queue].agent == Some(a) && s.agents[a].loggedIn && !s.agents[a].recon
  }

  // Of each resource it needs there is enough left.
  predicate NeedsFree(s: Server, id: JobId) {
    id in s.jobs &&
    forall i :: 0 <= i < |s.jobs[id].needs| ==>
      var n := s.jobs[id].needs[i]; n.res in s.resources && s.resources[n.res].inUse + n.needed <= s.resources[n.res].count
  }

  lemma StartableIff(s: Server, id: JobId)
    ensures Startable(s, Some(id)) <==> Waits(s, id) && HasRoom(s, id) && AgentTakes(s, id) && NeedsFree(s, id)
  {
  }

  // -------------------------------------------------------------------------
  // Only such jobs are sent
  // -------------------------------------------------------------------------

  // A pass flags jobs as sent and changes nothing else about any job.
  predicate OnlySends(s: Server, t: Server) {
    && t.jobs.Keys == s.jobs.Keys
    && forall id :: id in s.jobs ==> t.jobs[id] == s.jobs[id].(started := t.jobs[id].started) && (s.jobs[id].started ==> t.jobs[id].started)
  }

  // What a start takes away it does not give to another.
  lemma StartTakes(s: Server, x: JobId, id: JobId)
    requires Known(s, x)
    ensures OnlySends(s, Start(s, x))
    ensures Waits(Start(s, x), id) ==> Waits(s, id)
    ensures HasRoom(Start(s, x), id) ==> HasRoom(s, id)
    ensures AgentTakes(Start(s, x), id) <==> AgentTakes(s, id)
    ensures NeedsNonNegative(s) ==> NeedsNonNegative(Start(s, x)) && (NeedsFree(Start(s, x), id) ==> NeedsFree(s, id))
  {
    if NeedsNonNegative(s) && NeedsFree(Start(s, x), id) { NeedsWereFree(s, x, id); }
    hide Allocate;
  }

  lemma NeedsWereFree(s: Server, x: JobId, id: JobId)
    requires Known(s, x) && NeedsNonNegative(s) && NeedsFree(Start(s, x), id)
    ensures NeedsFree(s, id)
  {
    var needs := s.jobs[id].needs;
    assert Start(s, x).jobs[id].needs == needs;
    forall i | 0 <= i < |needs|
      ensures needs[i].res in s.resources && s.resources[needs[i].res].inUse + needs[i].needed <= s.resources[needs[i].res].count
    {
      AllocateGrows(s.resources, s.jobs[x].needs, needs[i].res);
    }
  }

  ghost predicate SentRightly(s: Server, t: Server, id: JobId) {
    id in s.jobs && id in t.jobs && t.jobs[id].started && !s.jobs[id].started ==>
      Waits(s, id) && HasRoom(s, id) && AgentTakes(s, id) && (NeedsNonNegative(s) ==> NeedsFree(s, id))
  }

  lemma {:induction false} PassSends(s: Server, i: nat, quota: int, id: JobId)
    ensures OnlySends(s, PassFrom(s, i, quota)) && SentRightly(s, PassFrom(s, i, quota), id)
    decreases |s.pool| - i
  {
    if i < |s.pool| {
      if Startable(s, s.pool[i]) {
        var x := s.pool[i].value;
        StartFacts(s, s.pool[i]);
        StartableIff(s, x);
        StartTakes(s, x, id);
        OneSent(s, x, id);
        hide Startable, Waits, HasRoom, AgentTakes, NeedsFree, NeedsNonNegative, Start;
        if quota > 1 { PassSends(Start(s, x), i + 1, quota - 1, id); }
      } else {
        PassSends(s, i + 1, quota, id);
      }
    }
  }

  lemma OneSent(s: Server, x: JobId, id: JobId)
    requires Known(s, x)
    ensures id in s.jobs && id in Start(s, x).jobs && Start(s, x).jobs[id].started && !s.jobs[id].started ==> id == x
  {
  }

  // A call of the scheduler flags jobs as sent and does nothing else to any job. Whatever job it sends was
  // PENDING, its queue was open and had room, its agent was logged in and reconciled, and, as long as no job
  // needs less than nothing, each of its needs was free. It sends nothing at capacity or in read-only mode.
  lemma ScheduleSends(s: Server, id: JobId)
    ensures var t := CheckJobs(s);
            && OnlySends(s, t)
            && ((s.maxRun != -1 && s.stats.Get(Running) >= s.maxRun) || s.readonly ==> t.jobs == s.jobs)
            && (id in s.jobs && t.jobs[id].started && !s.jobs[id].started ==>
                  && s.jobs[id].state == Pending
                  && s.jobs[id].queue in s.queues && s.jobs[id].queue in s.qstats
                  && (var q, qs := s.queues[s.jobs[id].queue], s.qstats[s.jobs[id].queue];
                      && q.started && qs.Get(Running) + qs.startPending < q.limit
                      && q.agent.Some? && q.agent.value in s.agents
                      && s.agents[q.agent.value].loggedIn && !s.agents[q.agent.value].recon)
                  && (s.maxRun == -1 || s.stats.Get(Running) + s.stats.startPending <= s.maxRun)
                  && (NeedsNonNegative(s) ==>
                        forall i :: 0 <= i < |s.jobs[id].needs| ==>
                          var n := s.jobs[id].needs[i]; n.res in s.resources && s.resources[n.res].inUse + n.needed <= s.resources[n.res].count))
  {
    hide PassFrom, GeneratePool;
    var s1 := if s.recalc then GeneratePool(s) else s;
    if s.recalc { GenerateShape(s); }
    PassSends(s1, 0, Quota(s1), id);
    hide OnlySends;
    SameSends(s, s1, PassFrom(s1, 0, Quota(s1)), id);
  }

  lemma SameSends(s: Server, s1: Server, t: Server, id: JobId)
    requires s1 == s.(pool := s1.pool, poolSize := s1.poolSize, recalc := s1.recalc) && OnlySends(s1, t) && SentRightly(s1, t, id)
    ensures OnlySends(s, t) && SentRightly(s, t, id) && OnlySends(s, s) && OnlySends(s, s1)
  {
  }

  // -------------------------------------------------------------------------
  // Changed queues and resources
  // -------------------------------------------------------------------------

  // A call that follows a change of a queue sends a job of that queue only if the change opened it, or left it
  // open, and within the new limit. The change itself touches nothing but the three settings of that queue.
  lemma ChangedQueueRules(s: Server, q: QueueId, limit: int, started: bool, priority: int, id: JobId)
    requires q in s.queues && q in s.qstats
    ensures var s1 := ModQueue(s, q, limit, started, priority);
            && s1 == s.(queues := s1.queues) && s1.queues.Keys == s.queues.Keys && s1.queues[q].agent == s.queues[q].agent
            && (forall x :: x in s.queues && x != q ==> s1.queues[x] == s.queues[x])
            && var t := CheckJobs(s1);
               id in s.jobs && id in t.jobs && s.jobs[id].queue == q && t.jobs[id].started && !s.jobs[id].started ==>
                 started && s.qstats[q].Get(Running) + s.qstats[q].startPending < limit
  {
    var s1 := ModQueue(s, q, limit, started, priority);
    ScheduleSends(s1, id);
    hide CheckJobs, OnlySends;
  }

  // A call that follows a change of a resource sends a job that needs it only within the new count.
  lemma ChangedResourceRules(s: Server, r: ResId, count: int, id: JobId, i: nat)
    requires r in s.resources && NeedsNonNegative(s)
    ensures var s1 := ModResource(s, r, count);
            && s1 == s.(resources := s1.resources) && s1.resources.Keys == s.resources.Keys
            && s1.resources[r].inUse == s.resources[r].inUse
            && (forall x :: x in s.resources && x != r ==> s1.resources[x] == s.resources[x])
            && var t := CheckJobs(s1);
               id in s.jobs && id in t.jobs && t.jobs[id].started && !s.jobs[id].started
               && i < |s.jobs[id].needs| && s.jobs[id].needs[i].res == r ==>
                 s.resources[r].inUse + s.jobs[id].needs[i].needed <= count
  {
    var s1 := ModResource(s, r, count);
    ScheduleSends(s1, id);
    hide CheckJobs, OnlySends;
  }

  // -------------------------------------------------------------------------
  // No such job is left behind
  // -------------------------------------------------------------------------

  // A call that works on its pool ends in one of the states between visits of the loop: the last one,
  // unless it has sent as many jobs as the maximum leaves room for.
  lemma CallEndsAt(s: Server) returns (s1: Server, n: nat)
    requires BaseInv(s) && Counted(s) && PoolInv(s) && NeedsNonNegative(s) && !s.readonly
    requires s.maxRun == -1 || s.stats.Get(Running) < s.maxRun
    ensures BaseInv(s1) && PoolInv(s1) && (InOrderOrDue(s) ==> Ranked(s1)) && !s1.recalc && NeedsNonNegative(s1)
    ensures s1 == s.(pool := s1.pool, poolSize := s1.poolSize, recalc := s1.recalc)
    ensures n <= |s1.pool| && CheckJobs(s) == Visited(s1, n)
    ensures n < |s1.pool| ==> s.maxRun != -1 && Visited(s1, n).stats.startPending - s.stats.startPending == s.maxRun - s.stats.Get(Running)
  {
    hide BaseInv, Counted, PoolInv, Ranked, GeneratePool, PassFrom, Visited;
    s1 := if s.recalc then GeneratePool(s) else s;
    if s.recalc { RebuiltSound(s); }
    n := PassEndsAt(s1, 0, s1, Quota(s1)) by { FirstState(s1); }
    SentAtMost(s1, n);
  }

  lemma FirstState(s: Server)
    ensures Visited(s, 0) == s
  {
  }

  lemma {:induction false} SentAtMost(s: Server, n: nat)
    ensures Visited(s, n).stats.startPending - s.stats.startPending <= n
  {
    if n > 0 {
      SentAtMost(s, n - 1);
      hide Startable;
    }
  }

  // A call that sends fewer jobs than the maximum leaves room for leaves no job behind of which everything
  // holds that a job must have to be sent.
  lemma NothingLeftBehind(s: Server, id: JobId)
    requires BaseInv(s) && Counted(s) && PoolInv(s) && NeedsNonNegative(s) && !s.readonly
    requires s.maxRun == -1 || CheckJobs(s).stats.startPending - s.stats.startPending < s.maxRun - s.stats.Get(Running)
    ensures var t := CheckJobs(s); !(Waits(t, id) && HasRoom(t, id) && AgentTakes(t, id) && NeedsFree(t, id))
  {
    var t := CheckJobs(s);
    StartableIff(t, id);
    hide BaseInv, Counted, PoolInv, InOrderOrDue, Ranked, NeedsNonNegative, Startable, Visited, Waits, HasRoom, AgentTakes, NeedsFree;
    if s.maxRun == -1 || s.stats.Get(Running) < s.maxRun {
      var s1, n := CallEndsAt(s);
      if Startable(t, Some(id)) {
        StartableIsWaiting(s1, n, Some(id));
        var k := WaitingSlot(s1, id);
        PassedSlotStaysBlocked(s1, k, n);
      }
    }
  }

  // -------------------------------------------------------------------------
  // The highest rank first
  // -------------------------------------------------------------------------

  lemma {:induction false} SentAt(s: Server, n: nat, x: JobId) returns (i: nat)
    requires NeedsNonNegative(s) && n <= |s.pool| && x in s.jobs && !s.jobs[x].started
    requires x in Visited(s, n).jobs && Visited(s, n).jobs[x].started
    ensures i < n && s.pool[i] == Some(x) && Startable(Visited(s, i), Some(x))
  {
    var v := Visited(s, n - 1);
    NextVisit(s, n - 1);
    hide Startable, NeedsNonNegative;
    if Startable(v, s.pool[n - 1]) {
      StartFacts(v, s.pool[n - 1]);
      if s.pool[n - 1] == Some(x) { return n - 1; }
    }
    i := SentAt(s, n - 1, x);
  }

  lemma {:induction false} CouldStartBefore(s: Server, i: nat, n: nat, slot: Option<JobId>)
    requires NeedsNonNegative(s) && i <= n <= |s.pool| && Startable(Visited(s, n), slot)
    ensures Startable(Visited(s, i), slot)
    decreases n - i
  {
    if i < n {
      CouldStartBefore(s, i + 1, n, slot);
      NextVisit(s, i);
      VisitedKeeps(s, i);
      hide Startable, NeedsNonNegative, Visited, Visit;
      if !Startable(Visited(s, i), slot) { BlockedStaysBlocked(Visited(s, i), s.pool[i], slot); }
    }
  }

  // No call sends a job and leaves one behind that could still be sent and ranks higher: by the priority of
  // its queue, then by its own, then by its id.
  lemma HigherRankFirst(s: Server, x: JobId, y: JobId)
    requires BaseInv(s) && Counted(s) && PoolInv(s) && InOrderOrDue(s) && NeedsNonNegative(s)
    requires var t := CheckJobs(s); x in s.jobs && !s.jobs[x].started && x in t.jobs && t.jobs[x].started
    requires var t := CheckJobs(s); Waits(t, y) && HasRoom(t, y) && AgentTakes(t, y) && NeedsFree(t, y)
    ensures y in s.jobs && s.jobs[x].queue in s.queues && s.jobs[y].queue in s.queues
    ensures var jx, jy := s.jobs[x], s.jobs[y]; var qx, qy := s.queues[jx.queue].priority, s.queues[jy.queue].priority;
            qx > qy || (qx == qy && jx.priority > jy.priority) || (qx == qy && jx.priority == jy.priority && x < y)
  {
    var t := CheckJobs(s);
    StartableIff(t, y);
    ScheduleSends(s, x);
    var s1, n := CallEndsAt(s);
    NotSent(t, y);
    hide Startable, Visited, NeedsNonNegative, BaseInv, PoolInv, Ranked, Counted, InOrderOrDue, CheckJobs, OnlySends;
    hide Waits, HasRoom, AgentTakes, NeedsFree;
    var i := SentAt(s1, n, x);
    CouldStartBefore(s1, i, n, Some(y));
    HighestFirst(s1, i, y);
  }

  lemma NotSent(t: Server, y: JobId)
    requires Waits(t, y)
    ensures y in t.jobs && !t.jobs[y].started
  {
  }
}
