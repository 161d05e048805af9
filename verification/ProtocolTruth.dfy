/**
 What the daemon records of an end is how the process ended.

 Beside a run stands its story: how the last process of each job ended, a process that could not be
 spawned counting as failed, and which jobs of unknown fate a user has declared over. The story is made
 from the events alone, not from what is listed, sent or recorded.
 */
module ProtocolTruth {
  import opened JobStates
  import opened Protocol
  import opened ProtocolLoss

  datatype Story = Story(succeeded: map<JobId, bool>, settled: set<JobId>)

  const NOTHING := Story(map[], {})

  function Told(h: Story, s: System, e: Event): Story
    requires Enabled(s, e, ResolveAny)
  {
    match e
    case ProcessExit(i, ok, reaped) => if reaped then h.(succeeded := h.succeeded[s.entries[i].job := ok]) else h
    case AgentRecv(spawned) =>
      if s.down[0].StartJob? && !spawned then h.(succeeded := h.succeeded[s.down[0].job := false]) else h
    case ResolveUnknown(j, st) => if st == Exited then h.(settled := h.settled + {j}) else h
    case SendStart(j) => h.(settled := h.settled - {j})
    case _ => h
  }

  function StoryOf(h: Story, s: System, events: seq<Event>, policy: Policy): Story
    requires IsRun(s, events, policy)
    decreases events
  {
    if events == [] then h else StoryOf(Told(h, s, events[0]), Apply(s, events[0]), events[1..], policy)
  }

  predicate Ended(h: Story, j: JobId, ok: bool) {
    j in h.succeeded && h.succeeded[j] == ok
  }

  // The items of the recon on its way, if there is one.
  function ReconItems(s: System): seq<Entry> {
    if EndsInRecon(s.up) then s.up[|s.up| - 1].items else []
  }

  predicate ListsTruly(es: seq<Entry>, h: Story, j: JobId) {
    (Entry(j, Done(true)) in es ==> Ended(h, j, true)) && (Entry(j, Done(false)) in es ==> Ended(h, j, false))
  }

  predicate SaysTruly(up: seq<Up>, h: Story, j: JobId) {
    (JobCompleted(j, true) in up ==> Ended(h, j, true)) && (JobCompleted(j, false) in up ==> Ended(h, j, false))
  }

  predicate RecordsTruly(jobs: map<JobId, Job>, h: Story, j: JobId) {
    j in jobs ==>
      && (jobs[j].state == Completed ==> Ended(h, j, true) && !jobs[j].started)
      && (jobs[j].state == Exited ==> (Ended(h, j, false) || j in h.settled) && !jobs[j].started)
  }

  predicate Truth(s: System, h: Story, j: JobId) {
    && ListsTruly(s.entries, h, j) && SaysTruly(s.up, h, j) && ListsTruly(ReconItems(s), h, j) && RecordsTruly(s.jobs, h, j)
    && OneEntry(ReconItems(s), j)
    && (j in s.jobs && s.jobs[j].started ==> Ready(s))
  }

  // -------------------------------------------------------------------------
  // Preservation
  // -------------------------------------------------------------------------

  lemma UserTruth(s: System, h: Story, e: Event, j: JobId, policy: Policy)
    requires SessionInv(s) && JobInv(s, j, policy) && Truth(s, h, j) && Enabled(s, e, policy)
    requires e.AddJob? || e.ModJob? || e.DeleteJob? || e.CleanupJob? || e.ResolveUnknown? || e.SendStart?
    ensures Truth(Apply(s, e), Told(h, s, e), j)
  {
  }

  lemma ConnectionTruth(s: System, h: Story, e: Event, j: JobId, policy: Policy)
    requires SessionInv(s) && JobInv(s, j, policy) && Truth(s, h, j) && Enabled(s, e, policy)
    requires e.DaemonDisconnect? || e.AgentDisconnect? || e.AgentConnect?
    ensures Truth(Apply(s, e), Told(h, s, e), j)
  {
    if e.AgentDisconnect? {
      var up := s.up[..e.kept];
      assert forall x :: x in up ==> x in s.up;
      KeptRecon(s, e.kept);
    }
  }

  lemma KeptRecon(s: System, kept: nat)
    requires SessionInv(s) && kept <= |s.up|
    ensures EndsInRecon(s.up[..kept]) ==> kept == |s.up| && s.up[..kept] == s.up
  {
    if kept > 0 && s.up[kept - 1].Recon? { OnlyLastRecon(s, kept - 1); }
  }

  lemma {:induction false} ReconAllTruly(jobs: map<JobId, Job>, items: seq<Entry>, h: Story, j: JobId)
    requires RecordsTruly(jobs, h, j) && ListsTruly(items, h, j) && (j in jobs ==> !jobs[j].started)
    ensures RecordsTruly(ReconAll(jobs, items), h, j)
    ensures j in ReconAll(jobs, items) ==> !ReconAll(jobs, items)[j].started
  {
    if items != [] {
      assert items[0] in items && forall x :: x in items[1..] ==> x in items;
      ReconAllTruly(ReconOne(jobs, items[0]), items[1..], h, j);
    }
  }

  lemma DaemonRecvTruth(s: System, h: Story, j: JobId, policy: Policy)
    requires SessionInv(s) && JobInv(s, j, policy) && Truth(s, h, j) && Enabled(s, DaemonRecv, policy)
    ensures Truth(Apply(s, DaemonRecv), h, j)
  {
    if s.up[0].Recon? {
      ReconTruth(s, h, j, policy);
    } else {
      ReportTruth(s, h, j, policy);
      hide SessionInv, JobInv;
      RestTruth(s, h, j, policy);
    }
  }

  lemma RestTruth(s: System, h: Story, j: JobId, policy: Policy)
    requires Truth(s, h, j) && Enabled(s, DaemonRecv, policy) && !s.up[0].Recon?
    ensures var s' := Apply(s, DaemonRecv);
            ListsTruly(s'.entries, h, j) && SaysTruly(s'.up, h, j) && ListsTruly(ReconItems(s'), h, j) && OneEntry(ReconItems(s'), j)
  {
    var s' := Apply(s, DaemonRecv);
    assert s'.up == s.up[1..] && s'.entries == s.entries && forall x :: x in s.up[1..] ==> x in s.up;
    assert EndsInRecon(s'.up) ==> EndsInRecon(s.up) && s'.up[|s'.up| - 1] == s.up[|s.up| - 1];
    hide Apply, Ended;
  }

  lemma ReconTruth(s: System, h: Story, j: JobId, policy: Policy)
    requires SessionInv(s) && Truth(s, h, j) && Enabled(s, DaemonRecv, policy) && s.up[0].Recon?
    ensures Truth(Apply(s, DaemonRecv), h, j)
  {
    OnlyLastRecon(s, 0);
    assert s.recon;
    hide SessionInv;
    ReconAllTruly(s.jobs, s.up[0].items, h, j);
    assert s.up[1..] == [];
  }

  lemma ReportTruth(s: System, h: Story, j: JobId, policy: Policy)
    requires SessionInv(s) && JobInv(s, j, policy) && Truth(s, h, j) && Enabled(s, DaemonRecv, policy) && !s.up[0].Recon?
    ensures RecordsTruly(Apply(s, DaemonRecv).jobs, h, j)
    ensures var s' := Apply(s, DaemonRecv); j in s'.jobs && s'.jobs[j].started ==> Ready(s')
  {
    assert s.up[0] in s.up;
  }

  lemma AgentRecvTruth(s: System, h: Story, spawned: bool, j: JobId, policy: Policy)
    requires SessionInv(s) && JobInv(s, j, policy) && Truth(s, h, j) && Enabled(s, AgentRecv(spawned), policy)
    ensures Truth(Apply(s, AgentRecv(spawned)), Told(h, s, AgentRecv(spawned)), j)
  {
    assert s.down[0] in s.down;
    match s.down[0]
    case StartJob(k) => SpawnTruth(s, h, spawned, j, policy);
    case ReconReq => AnswerTruth(s, h, spawned, j, policy);
    case ReconComplete => DropDoneJob(s.entries, j); DroppedIff(s.entries);
  }

  lemma SpawnTruth(s: System, h: Story, spawned: bool, j: JobId, policy: Policy)
    requires SessionInv(s) && JobInv(s, j, policy) && Truth(s, h, j) && Enabled(s, AgentRecv(spawned), policy) && s.down[0].StartJob?
    ensures Truth(Apply(s, AgentRecv(spawned)), Told(h, s, AgentRecv(spawned)), j)
  {
    var s', k := Apply(s, AgentRecv(spawned)), s.down[0].job;
    assert s.down[0] in s.down;
    assert forall x :: x in s'.entries ==> x in s.entries || x == Entry(k, Live);
    assert forall x :: x in s'.up ==> x in s.up || x == JobStarted(k) || (!spawned && x == JobCompleted(k, false));
    assert !EndsInRecon(s.up) || s'.up == s.up;
    if k == j { NothingElse(s, j, policy); }
  }

  // While a start of a job is the next message, nothing of an earlier process of it is left.
  lemma NothingElse(s: System, j: JobId, policy: Policy)
    requires SessionInv(s) && JobInv(s, j, policy) && s.down != [] && s.down[0] == StartJob(j)
    ensures !HasDone(s.entries, j) && !HasCompletion(s.up, j) && !HasProcess(s.entries, j) && !EndsInRecon(s.up)
    ensures s.daemonUp ==> j in s.jobs && s.jobs[j].state == Pending
  {
    assert s.down[0] in s.down;
  }

  lemma AnswerTruth(s: System, h: Story, spawned: bool, j: JobId, policy: Policy)
    requires SessionInv(s) && JobInv(s, j, policy) && Truth(s, h, j) && Enabled(s, AgentRecv(spawned), policy) && s.down[0] == ReconReq
    ensures Truth(Apply(s, AgentRecv(spawned)), h, j)
  {
    var s' := Apply(s, AgentRecv(spawned));
    assert forall x :: x in s'.up ==> x in s.up || x == Recon(s.entries);
    if s.daemonUp { assert s'.up[|s'.up| - 1] == Recon(s.entries); }
  }

  lemma ProcessExitTruth(s: System, h: Story, i: nat, ok: bool, reaped: bool, j: JobId, policy: Policy)
    requires SessionInv(s) && JobInv(s, j, policy) && Truth(s, h, j) && Enabled(s, ProcessExit(i, ok, reaped), policy)
    ensures Truth(Apply(s, ProcessExit(i, ok, reaped)), Told(h, s, ProcessExit(i, ok, reaped)), j)
  {
    hide SessionInv, JobInv, Apply, HasProcess, OneEntry;
    var s', h' := Apply(s, ProcessExit(i, ok, reaped)), Told(h, s, ProcessExit(i, ok, reaped));
    ExitNews(s, i, ok, reaped, policy);
    SameRecon(s, s', policy);
    if s.entries[i].job == j {
      StillAlive(s, i, policy);
    } else {
      assert forall b :: Ended(h', j, b) <==> Ended(h, j, b);
      hide Told, Ended;
    }
  }

  // All that is new after the end of a process.
  lemma ExitNews(s: System, i: nat, ok: bool, reaped: bool, policy: Policy)
    requires Enabled(s, ProcessExit(i, ok, reaped), policy)
    ensures var s', k := Apply(s, ProcessExit(i, ok, reaped)), s.entries[i].job;
            && s'.jobs == s.jobs && (Ready(s') <==> Ready(s))
            && (forall x :: x in s'.up ==> x in s.up || (reaped && x == JobCompleted(k, ok)))
            && (forall x :: x in s'.entries ==> x in s.entries || (x == Entry(k, Ending) && !reaped) || (x == Entry(k, Done(ok)) && reaped))
            && (s'.up == s.up || (!s.inRecon && s.agentUp && s.daemonUp && |s'.up| == |s.up| + 1 && s'.up[|s.up|].JobCompleted?))
  {
  }

  // A process that has not ended is the only trace of its job.
  lemma StillAlive(s: System, i: nat, policy: Policy)
    requires i < |s.entries| && !s.entries[i].proc.Done? && JobInv(s, s.entries[i].job, policy)
    ensures var j := s.entries[i].job;
            && HasProcess(s.entries, j) && !HasDone(s.entries, j) && !HasCompletion(s.up, j) && Active(s.jobs, j)
            && (EndsInRecon(s.up) ==> !HasDone(s.up[|s.up| - 1].items, j))
  {
    var j := s.entries[i].job;
    assert s.entries[i] in s.entries;
    assert s.entries[i].proc == Live || s.entries[i].proc == Ending;
    if HasDone(s.entries, j) { NoProcessBesideDone(s.entries, j); }
  }

  lemma SameRecon(s: System, s': System, policy: Policy)
    requires SessionInv(s) && (s'.up == s.up || (!s.inRecon && s.agentUp && s.daemonUp && |s'.up| == |s.up| + 1 && s'.up[|s.up|].JobCompleted?))
    ensures ReconItems(s') == ReconItems(s) || (!EndsInRecon(s'.up) && !EndsInRecon(s.up))
  {
  }

  lemma TruthKept(s: System, h: Story, e: Event, j: JobId, policy: Policy)
    requires SessionInv(s) && JobInv(s, j, policy) && Truth(s, h, j) && Enabled(s, e, policy)
    ensures Truth(Apply(s, e), Told(h, s, e), j)
  {
    hide SessionInv, JobInv, Truth, Apply;
    match e
    case DaemonRecv => DaemonRecvTruth(s, h, j, policy);
    case AgentRecv(spawned) => AgentRecvTruth(s, h, spawned, j, policy);
    case ProcessExit(i, ok, reaped) => ProcessExitTruth(s, h, i, ok, reaped, j, policy);
    case DaemonDisconnect(_) => ConnectionTruth(s, h, e, j, policy);
    case AgentDisconnect(_) => ConnectionTruth(s, h, e, j, policy);
    case AgentConnect => ConnectionTruth(s, h, e, j, policy);
    case _ => UserTruth(s, h, e, j, policy);
  }

  lemma {:induction false} RunTruth(s: System, h: Story, events: seq<Event>, j: JobId, policy: Policy)
    requires policy != ResolveAny && Inv(s, policy) && IsRun(s, events, policy) && Truth(s, h, j)
    ensures Truth(Run(s, events, policy), StoryOf(h, s, events, policy), j)
    decreases events
  {
    if events != [] {
      assert JobInv(s, j, policy);
      TruthKept(s, h, events[0], j, policy);
      StepKept(s, events[0], policy);
      hide Inv, Truth, Apply, Told, JobInv;
      RunTruth(Apply(s, events[0]), Told(h, s, events[0]), events[1..], j, policy);
    }
  }

  // -------------------------------------------------------------------------
  // All runs
  // -------------------------------------------------------------------------

  // In every run, wherever the end of a job's process is told, in the agent's list, in a completion or in a
  // recon on its way, it is told as it was. A job is COMPLETED only if its last process succeeded, and
  // EXITED only if it failed, could not be spawned, or a user declared the job over.
  lemma EndsAreTold(s: System, events: seq<Event>, j: JobId, ok: bool, policy: Policy)
    requires policy != ResolveAny && Initial(s) && IsRun(s, events, policy)
    ensures var t, h := Run(s, events, policy), StoryOf(NOTHING, s, events, policy);
            && (Entry(j, Done(ok)) in t.entries ==> j in h.succeeded && h.succeeded[j] == ok)
            && (JobCompleted(j, ok) in t.up ==> j in h.succeeded && h.succeeded[j] == ok)
            && (forall i, k :: 0 <= i < |t.up| && t.up[i].Recon? && 0 <= k < |t.up[i].items| && t.up[i].items[k] == Entry(j, Done(ok)) ==>
                  j in h.succeeded && h.succeeded[j] == ok)
            && (j in t.jobs && t.jobs[j].state == Completed ==> j in h.succeeded && h.succeeded[j])
            && (j in t.jobs && t.jobs[j].state == Exited ==> (j in h.succeeded && !h.succeeded[j]) || j in h.settled)
  {
    RunKept(s, events, policy);
    RunTruth(s, NOTHING, events, j, policy);
    var t := Run(s, events, policy);
    hide Run, IsRun, StoryOf;
    forall i | 0 <= i < |t.up| && t.up[i].Recon? ensures i == |t.up| - 1 { OnlyLastRecon(t, i); }
    assert ok in {true, false};
  }

  lemma OnlyLastRecon(t: System, i: nat)
    requires SessionInv(t) && i < |t.up| && t.up[i].Recon?
    ensures i == |t.up| - 1
  {
    assert forall k :: 0 <= k < |t.up| - 1 ==> t.up[..|t.up| - 1][k] == t.up[k];
    assert forall k :: 0 < k < |t.up| ==> t.up[1..][k - 1] == t.up[k];
  }

  // When the daemon reads of the end of a job it knows, in a completion or in a recon, its record says
  // COMPLETED if the process succeeded and EXITED if it did not.
  lemma EndsAreRecorded(s: System, events: seq<Event>, j: JobId, policy: Policy)
    requires policy != ResolveAny && Initial(s) && IsRun(s, events, policy)
    requires var t := Run(s, events, policy); Enabled(t, DaemonRecv, policy) && j in t.jobs
    requires var m := Run(s, events, policy).up[0];
             (m.JobCompleted? && m.job == j) ||
             (m.Recon? && exists k :: 0 <= k < |m.items| && m.items[k].job == j && m.items[k].proc.Done?)
    ensures var t, h := Run(s, events, policy), StoryOf(NOTHING, s, events, policy);
            var u := Apply(t, DaemonRecv);
            j in u.jobs && j in h.succeeded && u.jobs[j].state == if h.succeeded[j] then Completed else Exited
  {
    RunKept(s, events, policy);
    RunTruth(s, NOTHING, events, j, policy);
    var t, h := Run(s, events, policy), StoryOf(NOTHING, s, events, policy);
    assert SessionInv(t) && JobInv(t, j, policy);
    hide Run, IsRun, StoryOf, Inv;
    ReadIsRecorded(t, h, j, policy);
  }

  lemma ReadIsRecorded(t: System, h: Story, j: JobId, policy: Policy)
    requires SessionInv(t) && Truth(t, h, j) && Enabled(t, DaemonRecv, policy) && j in t.jobs
    requires var m := t.up[0];
             (m.JobCompleted? && m.job == j) ||
             (m.Recon? && exists k :: 0 <= k < |m.items| && m.items[k].job == j && m.items[k].proc.Done?)
    ensures var u := Apply(t, DaemonRecv);
            j in u.jobs && j in h.succeeded && u.jobs[j].state == if h.succeeded[j] then Completed else Exited
  {
    assert t.up[0] in t.up;
    match t.up[0]
    case JobCompleted(_, ok) => assert ok in {true, false};
    case Recon(items) =>
      OnlyLastRecon(t, 0);
      var k :| 0 <= k < |items| && items[k].job == j && items[k].proc.Done?;
      var ok := items[k].proc.ok;
      assert items[k] == Entry(j, Done(ok)) && items[k] in items && ok in {true, false};
      ReconRecords(t.jobs, items, j, k);
      hide SessionInv;
  }

  // The only item of a job decides its record.
  lemma {:induction false} ReconRecords(jobs: map<JobId, Job>, items: seq<Entry>, j: JobId, k: nat)
    requires j in jobs && k < |items| && items[k].job == j && OneEntry(items, j)
    ensures j in ReconAll(jobs, items)
    ensures ReconAll(jobs, items)[j] == match items[k].proc
                                        case Live => jobs[j].(state := Running)
                                        case Ending => jobs[j]
                                        case Done(ok) => jobs[j].(state := if ok then Completed else Exited)
  {
    if k == 0 {
      ReconAllFinishes(ReconOne(jobs, items[0]), items[1..], j);
      assert forall i :: 0 <= i < |items[1..]| ==> items[1..][i].job != j;
    } else {
      assert items[0].job != j;
      ReconRecords(ReconOne(jobs, items[0]), items[1..], j, k - 1);
    }
  }

  // -------------------------------------------------------------------------
  // An agent that comes back
  // -------------------------------------------------------------------------

  // From the connection to the acknowledgement, with nothing in between.
  function Reconciliation(): seq<Event> {
    [AgentConnect, DaemonRecv, AgentRecv(true), DaemonRecv, AgentRecv(true)]
  }

  function Reconciled(s: System): System {
    System(ReconAll(s.jobs, s.entries), true, true, false, true, false, DropDone(s.entries), [], [])
  }

  lemma ReconciliationRuns(s: System, policy: Policy)
    requires SessionInv(s) && !s.daemonUp && !s.agentUp && (policy == ResolveSettled ==> NoEnding(s.entries))
    requires forall i :: 0 <= i < |s.entries| ==> s.entries[i].job in s.jobs
    ensures IsRun(s, Reconciliation(), policy) && Run(s, Reconciliation(), policy) == Reconciled(s)
  {
    var s1 := s.(daemonUp := true, loggedIn := false, agentUp := true, up := [Login]);
    var s2 := s1.(loggedIn := true, recon := true, up := [], down := [ReconReq]);
    var s3 := s2.(inRecon := true, up := [Recon(s.entries)], down := []);
    var s4 := s3.(jobs := ReconAll(s.jobs, s.entries), recon := false, up := [], down := [ReconComplete]);
    Connects(s, s1, s2, s3, policy);
    Acknowledges(s3, s4, policy);
    hide Apply, Enabled, SessionInv, ReconAll, DropDone;
    ThreeSteps(s2, AgentRecv(true), s3, DaemonRecv, s4, AgentRecv(true), [], policy);
    TwoSteps(s, AgentConnect, s1, DaemonRecv, [AgentRecv(true), DaemonRecv, AgentRecv(true)], policy);
    assert [AgentConnect, DaemonRecv] + [AgentRecv(true), DaemonRecv, AgentRecv(true)] == Reconciliation();
    assert [AgentRecv(true), DaemonRecv, AgentRecv(true)] + [] == [AgentRecv(true), DaemonRecv, AgentRecv(true)];
  }

  lemma TwoSteps(s: System, e: Event, t: System, f: Event, rest: seq<Event>, policy: Policy)
    requires Enabled(s, e, policy) && t == Apply(s, e) && Enabled(t, f, policy) && IsRun(Apply(t, f), rest, policy)
    ensures IsRun(s, [e, f] + rest, policy) && Run(s, [e, f] + rest, policy) == Run(Apply(t, f), rest, policy)
  {
    hide Apply, Enabled;
    Chain(t, f, rest, policy);
    Chain(s, e, [f] + rest, policy);
    assert [e] + ([f] + rest) == [e, f] + rest;
  }

  lemma ThreeSteps(s: System, e: Event, t: System, f: Event, u: System, g: Event, rest: seq<Event>, policy: Policy)
    requires Enabled(s, e, policy) && t == Apply(s, e) && Enabled(t, f, policy) && u == Apply(t, f)
    requires Enabled(u, g, policy) && IsRun(Apply(u, g), rest, policy)
    ensures IsRun(s, [e, f, g] + rest, policy) && Run(s, [e, f, g] + rest, policy) == Run(Apply(u, g), rest, policy)
  {
    hide Apply, Enabled;
    Chain(u, g, rest, policy);
    TwoSteps(s, e, t, f, [g] + rest, policy);
    assert [e, f] + ([g] + rest) == [e, f, g] + rest;
  }

  lemma Connects(s: System, s1: System, s2: System, s3: System, policy: Policy)
    requires SessionInv(s) && !s.daemonUp && !s.agentUp && (policy == ResolveSettled ==> NoEnding(s.entries))
    requires s1 == s.(daemonUp := true, loggedIn := false, agentUp := true, up := [Login])
    requires s2 == s1.(loggedIn := true, recon := true, up := [], down := [ReconReq])
    requires s3 == s2.(inRecon := true, up := [Recon(s.entries)], down := [])
    ensures Enabled(s, AgentConnect, policy) && Apply(s, AgentConnect) == s1
    ensures Enabled(s1, DaemonRecv, policy) && Apply(s1, DaemonRecv) == s2
    ensures Enabled(s2, AgentRecv(true), policy) && Apply(s2, AgentRecv(true)) == s3
  {
    assert [Login][1..] == [] && [ReconReq][1..] == [];
  }

  lemma Acknowledges(s3: System, s4: System, policy: Policy)
    requires s3.daemonUp && s3.agentUp && s3.loggedIn && s3.down == [] && s3.up == [Recon(s3.entries)]
    requires forall i :: 0 <= i < |s3.entries| ==> s3.entries[i].job in s3.jobs
    requires s4 == s3.(jobs := ReconAll(s3.jobs, s3.entries), recon := false, up := [], down := [ReconComplete])
    ensures Enabled(s3, DaemonRecv, policy) && Apply(s3, DaemonRecv) == s4
    ensures Enabled(s4, AgentRecv(true), policy)
    ensures Apply(s4, AgentRecv(true)) == s4.(entries := DropDone(s3.entries), inRecon := false, down := [])
  {
    assert [Recon(s3.entries)][1..] == [] && [ReconComplete][1..] == [];
  }

  // An agent that comes back settles every job it has listed in one exchange: a job whose process lives is
  // RUNNING, one whose process has ended is COMPLETED or EXITED as its entry says, and any other is as it was.
  // Exactly the ended entries are forgotten, and starts may be sent.
  lemma ReconciliationIsExact(s: System, j: JobId, policy: Policy)
    requires Inv(s, policy) && !s.daemonUp && !s.agentUp && (policy == ResolveSettled ==> NoEnding(s.entries))
    requires forall i :: 0 <= i < |s.entries| ==> s.entries[i].job in s.jobs
    ensures IsRun(s, Reconciliation(), policy)
    ensures var u := Run(s, Reconciliation(), policy);
            && u.daemonUp && u.loggedIn && !u.recon && u.agentUp && !u.inRecon && u.down == [] && u.up == []
            && (forall x :: x in u.entries <==> x in s.entries && !x.proc.Done?)
            && (j in s.jobs ==>
                  && j in u.jobs
                  && (Entry(j, Live) in s.entries ==> u.jobs[j].state == Running)
                  && (Entry(j, Done(true)) in s.entries ==> u.jobs[j].state == Completed)
                  && (Entry(j, Done(false)) in s.entries ==> u.jobs[j].state == Exited)
                  && (!(Entry(j, Live) in s.entries || Entry(j, Done(true)) in s.entries || Entry(j, Done(false)) in s.entries) ==>
                        u.jobs[j] == s.jobs[j]))
  {
    assert SessionInv(s) && JobInv(s, j, policy);
    ReconciliationRuns(s, policy);
    DroppedIff(s.entries);
    hide SessionInv, Run, IsRun, Inv;
    if j in s.jobs {
      if k :| 0 <= k < |s.entries| && s.entries[k].job == j {
        ReconRecords(s.jobs, s.entries, j, k);
        OnlyOne(s.entries, j, k);
      } else {
        ReconAllFinishes(s.jobs, s.entries, j);
      }
    }
  }

  lemma OnlyOne(es: seq<Entry>, j: JobId, k: nat)
    requires k < |es| && es[k].job == j && OneEntry(es, j)
    ensures forall p :: Entry(j, p) in es <==> p == es[k].proc
  {
    forall p | Entry(j, p) in es ensures p == es[k].proc { var m :| 0 <= m < |es| && es[m] == Entry(j, p); }
    assert es[k] in es && es[k] == Entry(j, es[k].proc);
  }

  lemma {:induction false} DroppedIff(es: seq<Entry>)
    ensures forall x :: x in DropDone(es) <==> x in es && !x.proc.Done?
  {
    if es != [] { DroppedIff(es[1..]); }
  }
}
