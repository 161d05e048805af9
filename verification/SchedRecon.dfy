/**
 The daemon's tables and the conversation with the agent: the messages the protocol delivers are ones
 the tables can take, and both models agree on what a message does to a job.
 */
module SchedRecon {
  import opened Options
  import opened JobStates
  import opened SchedState
  import opened SchedSteps
  import opened SchedDefer
  import opened SchedRun
  import Protocol

  // -------------------------------------------------------------------------
  // The protocol's view of the tables
  // -------------------------------------------------------------------------

  function Record(j: Job): Protocol.Job {
    Protocol.Job(j.state, j.started, j.deleted)
  }

  function Records(jobs: map<JobId, Job>): map<JobId, Protocol.Job> {
    map id | id in jobs :: Record(jobs[id])
  }

  function Item(e: Protocol.Entry): ReconItem {
    match e.proc
    case Live => Alive(e.job)
    case Ending => NotKnown(e.job)
    case Done(ok) => Ended(e.job, !ok)
  }

  function Items(es: seq<Protocol.Entry>): (r: seq<ReconItem>)
    ensures |r| == |es| && forall i :: 0 <= i < |es| ==> r[i] == Item(es[i])
  {
    if es == [] then [] else [Item(es[0])] + Items(es[1..])
  }

  // A message as the command handlers see it.
  function Handled(m: Protocol.Up, a: AgentId, hosts: set<QueueId>): Event {
    match m
    case Login => LoginMsg(a, hosts)
    case JobStarted(j) => StartedMsg(j)
    case JobCompleted(j, ok) => CompletedMsg(j, !ok)
    case Recon(items) => ReconMsg(a, Items(items))
  }

  // Whatever message the protocol delivers next, after any run, fits tables that hold the same records.
  lemma ProtocolMessagesFit(start: Protocol.System, events: seq<Protocol.Event>, policy: Protocol.Policy,
                            s: Server, a: AgentId, hosts: set<QueueId>)
    requires policy != Protocol.ResolveAny && Protocol.Initial(start) && Protocol.IsRun(start, events, policy)
    requires var t := Protocol.Run(start, events, policy); t.up != [] && BaseInv(s) && Records(s.jobs) == t.jobs
    ensures MessageFits(s, Handled(Protocol.Run(start, events, policy).up[0], a, hosts))
  {
    var t := Protocol.Run(start, events, policy);
    Protocol.ReportsMatchRecords(start, events, policy);
    hide Protocol.Run, Protocol.IsRun, Protocol.Initial, ListOk, TableInv;
    if t.up[0].Recon? {
      var items := t.up[0].items;
      forall i | 0 <= i < |items| ensures ReconFits(s, Item(items[i])) {
        if items[i].proc.Live? && items[i].job in s.jobs {
          assert Record(s.jobs[items[i].job]) == t.jobs[items[i].job];
          assert JobOk(s.jobs[items[i].job]);
        }
      }
    }
  }

  lemma RecordsChanged(jobs: map<JobId, Job>, id: JobId, j: Job)
    ensures Records(jobs[id := j]) == Records(jobs)[id := Record(j)]
  {
  }

  // What a recon leaves of one job: it is over or as it was, unless it is named alive.
  lemma ReconOneJob(s: Server, item: ReconItem, id: JobId)
    requires TableInv(s) && id in s.jobs
    ensures var t := ReconOne(s, item);
            && TableInv(t) && t.jobs.Keys == s.jobs.Keys && t.deferred == s.deferred
            && t.jobs[id] == s.jobs[id].(state := t.jobs[id].state, dirty := t.jobs[id].dirty)
            && t.jobs[id].state == if item.id != id || item.NotKnown? then s.jobs[id].state
                                   else if item.Ended? then FinalState(item.failed) else Running
  {
    if Known(s, item.id) && !item.NotKnown? {
      var to := if item.Ended? then FinalState(item.failed) else Running;
      ChangeShape(s, item.id, to, None, item.Ended?);
      ChangeKeepsTable(s, item.id, to, None, item.Ended?);
      hide TableInv;
    } else {
      assert item.id in s.jobs ==> Known(s, item.id);
    }
    hide ChangeJobState;
  }

  lemma ReconItemAgrees(s: Server, e: Protocol.Entry)
    requires TableInv(s)
    ensures Records(ReconOne(s, Item(e)).jobs) == Protocol.ReconOne(Records(s.jobs), e)
    ensures TableInv(ReconOne(s, Item(e)))
  {
    if e.job in s.jobs {
      ReconOneJob(s, Item(e), e.job);
      if !e.proc.Ending? {
        var st := if e.proc.Live? then Running else FinalState(!e.proc.ok);
        ChangeShape(s, e.job, st, None, e.proc.Done?);
        hide ChangeJobState, TableInv;
        RecordsChanged(s.jobs, e.job, Changed(s.jobs[e.job], st, None, e.proc.Done?));
      }
    }
  }

  lemma {:induction false} ReconAgrees(s: Server, es: seq<Protocol.Entry>)
    requires TableInv(s)
    ensures Records(ReconLoop(s, Items(es)).jobs) == Protocol.ReconAll(Records(s.jobs), es)
    decreases es
  {
    hide ReconOne, TableInv, Records;
    if es != [] {
      ReconItemAgrees(s, es[0]);
      assert Items(es)[1..] == Items(es[1..]);
      ReconAgrees(ReconOne(s, Item(es[0])), es[1..]);
    }
  }

  lemma ReportAgrees(s: Server, j: JobId, m: Protocol.Up, a: AgentId)
    requires TableInv(s) && j in s.jobs && (m.JobStarted? || m.JobCompleted?) && m.job == j
    ensures Records(Apply(s, Handled(m, a, {})).jobs)
            == Records(s.jobs)[j := Record(s.jobs[j]).(state := if m.JobStarted? then Running else Protocol.Finished(m.ok), started := false)]
  {
    var st := if m.JobStarted? then Running else Protocol.Finished(m.ok);
    ReportedJob(s, j, m, a);
    hide Apply, TableInv;
    RecordsChanged(s.jobs, j, Changed(s.jobs[j], st, None, true).(started := false));
  }

  lemma ReportedJob(s: Server, j: JobId, m: Protocol.Up, a: AgentId)
    requires TableInv(s) && j in s.jobs && (m.JobStarted? || m.JobCompleted?) && m.job == j
    ensures var st := if m.JobStarted? then Running else Protocol.Finished(m.ok);
            Apply(s, Handled(m, a, {})).jobs == s.jobs[j := Changed(s.jobs[j], st, None, true).(started := false)]
  {
    var s1 := if m.JobStarted? then s else NeedsReturned(s, j);
    assert Known(s, j);
    ChangeShape(s1, j, if m.JobStarted? then Running else Protocol.Finished(m.ok), None, true);
    hide ChangeJobState, TableInv, Deallocate;
  }

  // The handlers change the records exactly as the protocol's daemon does.
  lemma HandlersAgree(s: Server, t: Protocol.System, m: Protocol.Up, a: AgentId, hosts: set<QueueId>)
    requires TableInv(s) && Records(s.jobs) == t.jobs
    ensures Records(Apply(s, Handled(m, a, hosts)).jobs) == Protocol.DaemonReceives(t, m).jobs
  {
    hide TableInv, ReconLoop, ChangeJobState;
    match m
    case Login =>
    case JobStarted(j) => if j in s.jobs { ReportAgrees(s, j, m, a); }
    case JobCompleted(j, _) => if j in s.jobs { ReportAgrees(s, j, m, a); }
    case Recon(items) => ReconAgrees(s, items);
  }
}
