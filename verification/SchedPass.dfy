/**
 One pass of the scheduler over the candidate pool: it leaves no slot that could still be started,
 and it never starts a job while an earlier slot could be started.
 */
module SchedPass {
  import opened Options
  import opened JobStates
  import opened SchedState
  import opened SchedSteps

  predicate NeedsNonNegative(s: Server) {
    forall id :: id in s.jobs ==> NonNegative(s.jobs[id].needs)
  }

  // The state before slot i is visited when no quota stops the loop.
  function Visited(s: Server, i: nat): Server {
    if i == 0 then s
    else
      var v := Visited(s, i - 1);
      if i - 1 < |v.pool| then Visit(v, v.pool[i - 1]) else v
  }

  // -------------------------------------------------------------------------
  // Within a pass, tests that failed keep failing
  // -------------------------------------------------------------------------

  lemma {:induction false} AllocateGrows(res: map<ResId, Resource>, needs: seq<Need>, r: ResId)
    requires NonNegative(needs)
    ensures r in Allocate(res, needs) <==> r in res
    ensures r in res ==> Allocate(res, needs)[r].count == res[r].count && Allocate(res, needs)[r].inUse >= res[r].inUse
    decreases needs
  {
    if needs != [] {
      AllocateGrows(Taken(res, needs[0]), needs[1..], r);
    }
  }

  lemma AvailableShrinks(res: map<ResId, Resource>, taken: seq<Need>, needs: seq<Need>)
    requires NonNegative(taken) && Available(Allocate(res, taken), needs)
    ensures Available(res, needs)
  {
    forall i | 0 <= i < |needs|
      ensures needs[i].res in res && needs[i].needed <= res[needs[i].res].count - res[needs[i].res].inUse
    {
      AllocateGrows(res, taken, needs[i].res);
    }
  }

  lemma StartOnlyBlocks(s: Server, id: JobId, slot: Option<JobId>)
    requires Known(s, id) && NonNegative(s.jobs[id].needs) && Startable(Start(s, id), slot)
    ensures Startable(s, slot) && slot != Some(id)
  {
    AvailableShrinks(s.resources, s.jobs[id].needs, s.jobs[slot.value].needs);
  }

  lemma VisitKeeps(s: Server, slot: Option<JobId>)
    requires NeedsNonNegative(s)
    ensures var v := Visit(s, slot); NeedsNonNegative(v) && v.pool == s.pool && v.stats.startPending >= s.stats.startPending
  {
  }

  lemma {:induction false} VisitedKeeps(s: Server, i: nat)
    requires NeedsNonNegative(s)
    ensures NeedsNonNegative(Visited(s, i)) && Visited(s, i).pool == s.pool
  {
    if i > 0 {
      VisitedKeeps(s, i - 1);
      var v := Visited(s, i - 1);
      if i - 1 < |v.pool| { VisitKeeps(v, v.pool[i - 1]); }
    }
  }

  lemma BlockedStaysBlocked(v: Server, visited: Option<JobId>, slot: Option<JobId>)
    requires NeedsNonNegative(v) && (slot == visited || !Startable(v, slot))
    ensures !Startable(Visit(v, visited), slot)
  {
    if Startable(v, visited) && Startable(Visit(v, visited), slot) { StartOnlyBlocks(v, visited.value, slot); }
  }

  // A slot that has been visited cannot be started later in the pass.
  lemma {:induction false} PassedSlotStaysBlocked(s: Server, k: nat, i: nat)
    requires NeedsNonNegative(s) && k < i <= |s.pool|
    ensures !Startable(Visited(s, i), s.pool[k])
  {
    NextVisit(s, i - 1);
    VisitedKeeps(s, i - 1);
    if k < i - 1 { PassedSlotStaysBlocked(s, k, i - 1); }
    BlockedStaysBlocked(Visited(s, i - 1), s.pool[i - 1], s.pool[k]);
  }

  // No overtaking: when slot i is started, no earlier slot could be started at that moment.
  lemma NoOvertaking(s: Server, i: nat, k: nat)
    requires NeedsNonNegative(s) && k < i < |s.pool| && Startable(Visited(s, i), s.pool[i])
    ensures !Startable(Visited(s, i), s.pool[k])
  {
    PassedSlotStaysBlocked(s, k, i);
  }

  // -------------------------------------------------------------------------
  // The loop with its quota
  // -------------------------------------------------------------------------

  lemma NextVisit(s: Server, i: nat)
    requires NeedsNonNegative(s) && i < |s.pool|
    ensures Visited(s, i).pool == s.pool && Visited(s, i + 1) == Visit(Visited(s, i), s.pool[i])
  {
    VisitedKeeps(s, i);
  }

  lemma PassUnfolds(v: Server, i: nat, quota: int)
    requires i < |v.pool|
    ensures !Startable(v, v.pool[i]) ==> Visit(v, v.pool[i]) == v && PassFrom(v, i, quota) == PassFrom(v, i + 1, quota)
    ensures Startable(v, v.pool[i]) ==>
              && Visit(v, v.pool[i]).stats.startPending == v.stats.startPending + 1
              && PassFrom(v, i, quota) == if quota <= 1 then Visit(v, v.pool[i]) else PassFrom(Visit(v, v.pool[i]), i + 1, quota - 1)
  {
  }

  // The loop ends in one of the states in between: the last one, unless the quota was used up.
  lemma {:induction false} PassEndsAt(s: Server, i: nat, v: Server, quota: int) returns (n: nat)
    requires NeedsNonNegative(s) && i <= |s.pool| && v == Visited(s, i)
    ensures i <= n <= |s.pool| && PassFrom(v, i, quota) == Visited(s, n)
    ensures n < |s.pool| ==> Visited(s, n).stats.startPending - v.stats.startPending == (if quota <= 1 then 1 else quota)
    decreases |s.pool| - i
  {
    VisitedKeeps(s, i);
    if i == |s.pool| {
      return i;
    }
    NextVisit(s, i);
    PassUnfolds(v, i, quota);
    if !Startable(v, s.pool[i]) {
      n := PassEndsAt(s, i + 1, v, quota);
    } else if quota <= 1 {
      n := i + 1;
    } else {
      n := PassEndsAt(s, i + 1, Visit(v, s.pool[i]), quota - 1);
    }
  }

  // Work conservation: a pass that did not use up its quota leaves nothing to start.
  lemma PassIsWorkConserving(s: Server, quota: int, k: nat)
    requires NeedsNonNegative(s) && k < |s.pool|
    requires PassFrom(s, 0, quota).stats.startPending - s.stats.startPending < quota
    ensures !Startable(PassFrom(s, 0, quota), s.pool[k])
  {
    var n := PassEndsAt(s, 0, s, quota);
    if n == |s.pool| { PassedSlotStaysBlocked(s, k, n); }
  }

  // The same for the whole of checkJobs, for every slot of the pool it worked on.
  lemma CheckJobsIsWorkConserving(s: Server, slot: Option<JobId>)
    requires NeedsNonNegative(s) && !s.readonly
    requires s.maxRun == UNLIMITED_JOBS || s.stats.Get(Running) < s.maxRun
    requires var s1 := if s.recalc then GeneratePool(s) else s;
             CheckJobs(s).stats.startPending - s.stats.startPending < Quota(s1) && slot in s1.pool
    ensures !Startable(CheckJobs(s), slot)
  {
    var s1 := if s.recalc then GeneratePool(s) else s;
    var k :| 0 <= k < |s1.pool| && s1.pool[k] == slot;
    PassIsWorkConserving(s1, Quota(s1), k);
  }

  // A queue with a job that needs what is all in use, and one that would return it.
  function Short(inUse: int, sent: bool): Server {
    var first := Job(0, Pending, false, false, false, false, 0, 0, [Need(0, 1)]);
    var second := Job(0, Pending, sent, false, false, false, 0, 0, [Need(0, -1)]);
    var stats := Stats(map[], if sent then 1 else 0);
    Server(map[1 := first, 2 := second], [1, 2], map[0 := Queue(9, true, Some(0), 0)], map[0 := stats], map[0 := Resource(1, inUse)],
           map[0 := Agent(true, false)], stats, [Some(1), Some(2)], 3, false, [], UNLIMITED_JOBS, 0, false)
  }

  lemma ShortStart()
    ensures Known(Short(1, false), 2) && Start(Short(1, false), 2) == Short(0, true)
  {
    var s := Short(1, false);
    assert s.jobs[2].needs[1..] == [];
    assert Allocate(s.resources, s.jobs[2].needs) == map[0 := Resource(1, 0)];
  }

  // With a negative need the promise fails: starting the second job returns what the first waits for,
  // and the pass ends with the first still pending, startable, and starts left.
  lemma NegativeNeedBreaksWorkConservation()
    ensures exists s: Server :: !NeedsNonNegative(s) && !s.recalc && !s.readonly && |s.pool| == 2 && s.pool[0] == Some(1)
              && PassFrom(s, 0, 2).stats.startPending - s.stats.startPending < 2
              && Startable(PassFrom(s, 0, 2), s.pool[0])
  {
    var s, t := Short(1, false), Short(0, true);
    assert s.jobs[2].needs[0].needed < 0;
    assert !Startable(s, s.pool[0]) by { assert s.jobs[1].needs[0] == Need(0, 1); }
    assert Startable(s, s.pool[1]) && Startable(t, t.pool[0]);
    ShortStart();
    hide Start, Startable;
    assert PassFrom(s, 0, 2) == PassFrom(s, 1, 2) == PassFrom(t, 2, 1) == t;
  }
}
