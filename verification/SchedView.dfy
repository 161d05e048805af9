/**
 What each step does to one job, said of the job alone: its state, flags and fields before and after, in
 the terms of the commands and messages, without the functions that make up the step.
 */
module SchedView {
  import opened Options
  import opened JobStates
  import opened SchedState
  import opened SchedSteps
  import opened SchedRun
  import opened SchedRecon

  // All jobs but one are as they were.
  ghost predicate OthersKept(s: Server, t: Server, id: JobId) {
    forall x :: x != id ==> (x in t.jobs <==> x in s.jobs) && (x in s.jobs ==> t.jobs[x] == s.jobs[x])
  }

  // -------------------------------------------------------------------------
  // User commands
  // -------------------------------------------------------------------------

  // A request is refused if the id is taken or a queue or resource is missing. A submitted job is DEFERRED
  // if it carries a time, otherwise HOLDING if it is to be held, otherwise PENDING.
  lemma SubmitEffect(s: Server, id: JobId, r: Request)
    ensures var t := AddJob(s, id, r);
            && OthersKept(s, t, id)
            && if id in s.jobs || r.queue !in s.queues || r.queue !in s.qstats || exists i :: 0 <= i < |r.needs| && r.needs[i].res !in s.resources
               then t == s
               else && id in t.jobs
                    && t.jobs[id] == Job(r.queue, t.jobs[id].state, false, false, true, false, r.deferTime, r.priority, r.needs)
                    && (r.deferTime != 0 ==> t.jobs[id].state == Deferred)
                    && (r.deferTime == 0 && r.hold ==> t.jobs[id].state == Holding)
                    && (r.deferTime == 0 && !r.hold ==> t.jobs[id].state == Pending)
  {
    if !AddRefused(s, id, r) {
      ChangeShape(AddEntered(s, id, r), id, AddTarget(r), None, true);
    }
    hide ChangeJobState, InsertInOrder;
  }

  // What a modification may ask of a job: it is neither deleted nor with an agent, a job that is over is
  // not held or deferred without being restarted, and what is named exists.
  predicate Modifiable(s: Server, id: JobId, m: Mod) {
    && id in s.jobs && !s.jobs[id].deleted && s.jobs[id].state != Running && !s.jobs[id].started
    && (s.jobs[id].state in {Completed, Exited, Unknown} && !m.restart ==> m.deferTime.None? && m.hold.None?)
    && (m.priority.Some? ==> 0 <= m.priority.value <= 255)
    && (m.queue.Some? ==> m.queue.value in s.queues && m.queue.value in s.qstats)
    && (m.needs.Some? ==> forall i :: 0 <= i < |m.needs.value| ==> m.needs.value[i].res in s.resources)
  }

  // The fields a modification names are set, all others are as before.
  predicate Named(j: Job, j': Job, m: Mod) {
    && j'.deferTime == (if m.deferTime.Some? then m.deferTime.value else j.deferTime)
    && j'.priority == (if m.priority.Some? then m.priority.value else j.priority)
    && j'.queue == (if m.queue.Some? then m.queue.value else j.queue)
    && j'.needs == (if m.needs.Some? then m.needs.value else j.needs)
    && j'.started == j.started && j'.deleted == j.deleted && j'.flushing == j.flushing
  }

  // The state a modified job ends in: DEFERRED if it carries a time; otherwise HOLDING if hold is set, or
  // not named and the job was held; otherwise PENDING unless the job is over and not restarted; otherwise
  // what it was.
  predicate Settled(j: Job, j': Job, m: Mod) {
    && (j'.state == Deferred <==> j'.deferTime != 0)
    && (j'.deferTime == 0 ==>
          && (m.hold == Some(true) || (m.hold.None? && j.state == Holding) ==> j'.state == Holding)
          && (!(m.hold == Some(true) || (m.hold.None? && j.state == Holding)) ==>
                && (j.state !in {Completed, Exited, Unknown} || m.restart ==> j'.state == Pending)
                && (j.state in {Completed, Exited, Unknown} && !m.restart ==> j'.state == j.state)))
  }

  // A modification that names or changes anything that is saved leaves the job dirty.
  predicate Dirtied(j: Job, j': Job, m: Mod) {
    j'.dirty <==> || j.dirty || m.priority.Some? || m.deferTime.Some? || m.hold.Some? || m.queue.Some?
                  || (m.needs.Some? && (j.needs != [] || m.needs.value != []))
                  || (m.restart && j.state in {Completed, Exited, Unknown}) || j'.state != j.state
  }

  lemma ModifyEffect(s: Server, id: JobId, m: Mod)
    requires TableInv(s)
    ensures var t := ModJob(s, id, m);
            && OthersKept(s, t, id)
            && (!Modifiable(s, id, m) ==> t == s)
            && (Modifiable(s, id, m) ==>
                  && id in t.jobs && Named(s.jobs[id], t.jobs[id], m) && Settled(s.jobs[id], t.jobs[id], m)
                  && Dirtied(s.jobs[id], t.jobs[id], m))
  {
    hide TableInv, ModJob, ModRefused;
    ModifiableIff(s, id, m);
    if ModRefused(s, id, m) { ModifyRefused(s, id, m); } else { ModifiedJob(s, id, m); }
    hide Modifiable, Named, Settled, Dirtied;
  }

  lemma ModifiableIff(s: Server, id: JobId, m: Mod)
    requires TableInv(s)
    ensures Modifiable(s, id, m) <==> !ModRefused(s, id, m)
  {
    assert id in s.jobs ==> Known(s, id);
    hide TableInv;
  }

  lemma ModifyRefused(s: Server, id: JobId, m: Mod)
    requires ModRefused(s, id, m)
    ensures ModJob(s, id, m) == s
  {
  }

  lemma ModifiedJob(s: Server, id: JobId, m: Mod)
    requires !ModRefused(s, id, m)
    ensures var t := ModJob(s, id, m);
            && id in t.jobs && t.jobs == s.jobs[id := t.jobs[id]]
            && Named(s.jobs[id], t.jobs[id], m) && Settled(s.jobs[id], t.jobs[id], m) && Dirtied(s.jobs[id], t.jobs[id], m)
  {
    ChangeShape(ModEdited(s, id, m), id, ModTarget(s.jobs[id], m), m.queue, ModDirty(s.jobs[id], m));
    hide ChangeJobState, ModList, Deallocate;
  }

  // A deleted job is in no state, and off the deferred list.
  lemma DeleteEffect(s: Server, id: JobId)
    requires BaseInv(s)
    ensures var t := DeleteJob(s, id);
            && OthersKept(s, t, id)
            && (id !in s.jobs || s.jobs[id].deleted ==> t == s)
            && (id in s.jobs && !s.jobs[id].deleted ==>
                  && id in t.jobs && t.jobs[id] == s.jobs[id].(deleted := true, state := NoState)
                  && id !in t.deferred && t.deletedJobs == s.deletedJobs + 1)
  {
    DeleteBase(s, id);
    if id in s.jobs && !s.jobs[id].deleted { ChangeShape(DeleteMarked(s, id), id, NoState, None, false); }
    hide ChangeJobState;
  }

  // A signal ends a job of unknown fate.
  lemma SignalEffect(s: Server, id: JobId)
    requires TableInv(s)
    ensures var t := SignalUnknown(s, id);
            && OthersKept(s, t, id)
            && (!(id in s.jobs && !s.jobs[id].deleted && s.jobs[id].state == Unknown) ==> t == s)
            && (id in s.jobs && !s.jobs[id].deleted && s.jobs[id].state == Unknown ==>
                  id in t.jobs && t.jobs[id] == s.jobs[id].(state := Exited, dirty := true))
  {
    if id in s.jobs && !s.jobs[id].deleted && s.jobs[id].state == Unknown { ChangeShape(NeedsReturned(s, id), id, Exited, None, true); }
    hide ChangeJobState, Deallocate;
  }

  // A job leaves the table only when it is deleted and saved.
  lemma CleanupEffect(s: Server, id: JobId)
    ensures var t := CleanupJob(s, id);
            && OthersKept(s, t, id)
            && (id in t.jobs <==> id in s.jobs && (!s.jobs[id].deleted || s.jobs[id].dirty || s.jobs[id].flushing))
            && (id in t.jobs ==> t.jobs[id] == s.jobs[id])
            && t.deletedJobs == (if id in s.jobs && id !in t.jobs then s.deletedJobs - 1 else s.deletedJobs)
  {
    hide ClearSlots;
  }

  // -------------------------------------------------------------------------
  // Agent messages
  // -------------------------------------------------------------------------

  lemma StartedEffect(s: Server, id: JobId)
    requires TableInv(s)
    ensures var t := JobStarted(s, id);
            && OthersKept(s, t, id)
            && (id !in s.jobs ==> t == s)
            && (id in s.jobs ==> id in t.jobs && t.jobs[id] == s.jobs[id].(state := Running, started := false, dirty := true))
  {
    if id in s.jobs { ChangeShape(s, id, Running, None, true); }
    hide ChangeJobState;
  }

  lemma CompletedEffect(s: Server, id: JobId, failed: bool)
    requires TableInv(s)
    ensures var t := JobCompleted(s, id, failed);
            && OthersKept(s, t, id)
            && (id !in s.jobs ==> t == s)
            && (id in s.jobs ==>
                  id in t.jobs && t.jobs[id] == s.jobs[id].(state := if failed then Exited else Completed, started := false, dirty := true))
  {
    if id in s.jobs { ChangeShape(NeedsReturned(s, id), id, FinalState(failed), None, true); }
    hide ChangeJobState, Deallocate;
  }

  // The last item of a recon that says something of a job decides its state.
  function LastWord(items: seq<ReconItem>, id: JobId): Option<ReconItem>
    decreases |items|
  {
    if items == [] then None
    else
      var last := items[|items| - 1];
      if last.id == id && !last.NotKnown? then Some(last) else LastWord(items[..|items| - 1], id)
  }

  // A recon item by item, from the end.
  lemma {:induction false} LoopSplits(s: Server, items: seq<ReconItem>, last: ReconItem)
    ensures ReconLoop(s, items + [last]) == ReconOne(ReconLoop(s, items), last)
    decreases items
  {
    hide ReconOne;
    if items == [] {
      assert items + [last] == [last] && [last][1..] == [];
    } else {
      assert (items + [last])[0] == items[0] && (items + [last])[1..] == items[1..] + [last];
      LoopSplits(ReconOne(s, items[0]), items[1..], last);
    }
  }

  lemma {:induction false} ReconLoopEffect(s: Server, items: seq<ReconItem>, id: JobId)
    requires TableInv(s)
    ensures var t, word := ReconLoop(s, items), LastWord(items, id);
            && TableInv(t) && (id in t.jobs <==> id in s.jobs)
            && (id in s.jobs ==>
                  && t.jobs[id] == s.jobs[id].(state := t.jobs[id].state, dirty := t.jobs[id].dirty)
                  && (word.None? ==> t.jobs[id].state == s.jobs[id].state)
                  && (word.Some? && word.value.Alive? ==> t.jobs[id].state == Running)
                  && (word.Some? && word.value.Ended? ==> t.jobs[id].state == if word.value.failed then Exited else Completed))
    decreases |items|
  {
    hide ReconOne, TableInv;
    if items != [] {
      var front, last := items[..|items| - 1], items[|items| - 1];
      assert items == front + [last];
      ReconLoopEffect(s, front, id);
      LoopSplits(s, front, last);
      var t := ReconLoop(s, front);
      hide ReconLoop;
      if id in t.jobs { ReconOneJob(t, last, id); } else { ReconOneAbsent(t, last, id); }
    }
  }

  lemma ReconOneAbsent(s: Server, item: ReconItem, id: JobId)
    requires TableInv(s) && id !in s.jobs
    ensures TableInv(ReconOne(s, item)) && id !in ReconOne(s, item).jobs
  {
    if item.id in s.jobs {
      ReconOneJob(s, item, item.id);
      assert id !in s.jobs.Keys;
    }
  }

  // A recon leaves a job it says nothing of alone, makes one it last reports alive RUNNING, and one it last
  // reports as ended COMPLETED or EXITED. The agent may be sent jobs again.
  lemma ReconEffect(s: Server, a: AgentId, items: seq<ReconItem>, id: JobId)
    requires TableInv(s)
    ensures var t, word := Recon(s, a, items), LastWord(items, id);
            && (a in t.agents <==> a in s.agents) && (a in s.agents ==> t.agents[a] == s.agents[a].(recon := false))
            && (id in t.jobs <==> id in s.jobs)
            && (id in s.jobs ==>
                  && t.jobs[id] == s.jobs[id].(state := t.jobs[id].state, dirty := t.jobs[id].dirty)
                  && (word.None? ==> t.jobs[id].state == s.jobs[id].state)
                  && (word.Some? && word.value.Alive? ==> t.jobs[id].state == Running)
                  && (word.Some? && word.value.Ended? ==> t.jobs[id].state == if word.value.failed then Exited else Completed))
  {
    ReconLoopEffect(s, items, id);
    ReconLoopAgents(s, items);
    hide ReconLoop, TableInv;
  }

  lemma {:induction false} ReconLoopAgents(s: Server, items: seq<ReconItem>)
    ensures ReconLoop(s, items).agents == s.agents && ReconLoop(s, items).queues == s.queues
    decreases items
  {
    if items != [] {
      var item := items[0];
      if Known(s, item.id) && !item.NotKnown? {
        ChangeShape(s, item.id, if item.Ended? then FinalState(item.failed) else Running, None, item.Ended?);
      }
      hide ChangeJobState;
      ReconLoopAgents(ReconOne(s, item), items[1..]);
    }
  }

  // -------------------------------------------------------------------------
  // Losing an agent
  // -------------------------------------------------------------------------

  // The jobs of an agent that is lost.
  predicate WithAgent(s: Server, id: JobId, a: AgentId) {
    && id in s.jobs && s.jobs[id].queue in s.queues && s.queues[s.jobs[id].queue].agent == Some(a)
    && (s.jobs[id].state == Running || s.jobs[id].started)
  }

  lemma UnknownOneJob(s: Server, x: JobId, a: AgentId)
    requires TableInv(s) && RunsOn(s, x, a)
    ensures var t := UnknownOne(s, x);
            && TableInv(t) && t.queues == s.queues && t.agents == s.agents
            && t.jobs == s.jobs[x := s.jobs[x].(state := Unknown, started := false, deleted := false, flushing := false, dirty := true)]
  {
    EditsTable(s, FlagsCleared(s, x), x);
    ChangeShape(FlagsCleared(s, x), x, Unknown, None, true);
    ChangeKeepsTable(FlagsCleared(s, x), x, Unknown, None, true);
    hide ChangeJobState, TableInv;
  }

  lemma {:induction false} UnknownLoopEffect(s: Server, list: seq<JobId>, a: AgentId, id: JobId)
    requires TableInv(s)
    ensures var t := UnknownLoop(s, list, a);
            && t.queues == s.queues && t.agents == s.agents && (id in t.jobs <==> id in s.jobs)
            && (id in s.jobs ==>
                  t.jobs[id] == if id in list && WithAgent(s, id, a)
                                then s.jobs[id].(state := Unknown, started := false, deleted := false, flushing := false, dirty := true)
                                else s.jobs[id])
    decreases list
  {
    if list != [] {
      var x, rest := list[0], list[1..];
      assert x in s.jobs ==> Known(s, x);
      assert RunsOn(s, x, a) <==> WithAgent(s, x, a);
      if RunsOn(s, x, a) {
        UnknownOneJob(s, x, a);
        hide UnknownOne, TableInv, Known;
        UnknownLoopEffect(UnknownOne(s, x), rest, a, id);
      } else {
        hide UnknownOne, TableInv, Known;
        UnknownLoopEffect(s, rest, a, id);
      }
    }
  }

  // When an agent is lost, exactly the jobs that run or were sent in its queues become UNKNOWN, its queues
  // are stopped and have no agent, and it is logged out.
  lemma AgentGoneEffect(s: Server, a: AgentId, id: JobId)
    requires TableInv(s)
    ensures var t := Disconnect(s, a);
            && a in t.agents && !t.agents[a].loggedIn
            && t.queues.Keys == s.queues.Keys
            && (forall q :: q in s.queues ==>
                  t.queues[q] == if s.queues[q].agent == Some(a) then s.queues[q].(agent := None, started := false) else s.queues[q])
            && (id in t.jobs <==> id in s.jobs)
            && (id in s.jobs ==>
                  t.jobs[id] == if WithAgent(s, id, a)
                                then s.jobs[id].(state := Unknown, started := false, deleted := false, flushing := false, dirty := true)
                                else s.jobs[id])
  {
    UnknownLoopEffect(s, s.order, a, id);
    hide UnknownLoop;
  }

  // A login marks the agent as one whose jobs are still to be reconciled, and gives it its queues.
  lemma LoginEffect(s: Server, a: AgentId, hosts: set<QueueId>)
    ensures var t := Login(s, a, hosts);
            && t.jobs == s.jobs && a in t.agents && t.agents[a].loggedIn && t.agents[a].recon
            && (forall x :: x != a ==> (x in t.agents <==> x in s.agents) && (x in s.agents ==> t.agents[x] == s.agents[x]))
            && t.queues.Keys == s.queues.Keys
            && (forall q :: q in s.queues ==> t.queues[q] == if q in hosts then s.queues[q].(agent := Some(a)) else s.queues[q])
  {
  }
}
