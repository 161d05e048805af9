/**
 The conversation between jersd and one agent, as a state machine over its steps.

 Two FIFO channels join the daemon and the agent. Either side can lose the connection at any
 moment: whatever it had not read is gone, and of what the other side had already been sent
 only some prefix may still be read. The agent keeps a list of the processes it has spawned.
 */
module Protocol {
  import opened JobStates

  type JobId = nat

  datatype Job = Job(state: JobState, started: bool, deleted: bool)

  // What the pid field of an agent list entry says: above 0, equal to 0, equal to -1.
  datatype Proc = Live | Ending | Done(ok: bool)

  datatype Entry = Entry(job: JobId, proc: Proc)

  datatype Down = StartJob(job: JobId) | ReconReq | ReconComplete

  datatype Up = Login | JobStarted(job: JobId) | JobCompleted(job: JobId, ok: bool) | Recon(items: seq<Entry>)

  datatype System = System(
    jobs: map<JobId, Job>, daemonUp: bool, loggedIn: bool, recon: bool,
    agentUp: bool, inRecon: bool, entries: seq<Entry>,
    down: seq<Down>, up: seq<Up>)

  datatype Event =
    | AddJob(job: JobId, state: JobState)
    | ModJob(job: JobId, state: JobState)
    | DeleteJob(job: JobId)
    | CleanupJob(job: JobId)
    | ResolveUnknown(job: JobId, state: JobState)
    | SendStart(job: JobId)
    | DaemonRecv
    | DaemonDisconnect(kept: nat)
    | AgentConnect
    | AgentRecv(spawned: bool)
    | ProcessExit(index: nat, ok: bool, reported: bool)
    | AgentDisconnect(kept: nat)

  predicate Waiting(st: JobState) {
    st == Pending || st == Deferred || st == Holding
  }

  // A job whose process may exist, as far as the daemon knows.
  predicate Active(jobs: map<JobId, Job>, j: JobId) {
    j in jobs && (jobs[j].started || jobs[j].state == Running || jobs[j].state == Unknown)
  }

  // -------------------------------------------------------------------------
  // The steps
  // -------------------------------------------------------------------------

  // Starts may be sent: the agent has logged in and its recon has been processed.
  predicate Ready(s: System) {
    s.daemonUp && s.loggedIn && !s.recon
  }

  // No list entry is between the end of its process and the arrival of its exit status.
  predicate NoEnding(es: seq<Entry>) {
    forall i :: 0 <= i < |es| ==> es[i].proc != Ending
  }

  // What users do about UNKNOWN jobs: leave them alone; restart or signal them, with an agent that
  // never answers a recon request while an exit status is still missing; or restart and signal
  // freely. In every case only while the agent is reconciled.
  datatype Policy = LeaveUnknown | ResolveSettled | ResolveAny

  // A job that is STARTED, RUNNING or UNKNOWN is not deleted, and not modified otherwise.
  predicate Enabled(s: System, e: Event, policy: Policy) {
    match e
    case AddJob(j, st) => j !in s.jobs && Waiting(st)
    case ModJob(j, st) => j in s.jobs && !s.jobs[j].deleted && !Active(s.jobs, j) && Waiting(st)
    case DeleteJob(j) => j in s.jobs && !s.jobs[j].deleted && !Active(s.jobs, j)
    case CleanupJob(j) => j in s.jobs && s.jobs[j].deleted
    case ResolveUnknown(j, st) =>
      policy != LeaveUnknown && Ready(s) && j in s.jobs && s.jobs[j].state == Unknown && !s.jobs[j].started &&
      (Waiting(st) || st == Exited)
    case SendStart(j) =>
      Ready(s) && j in s.jobs &&
      s.jobs[j].state == Pending && !s.jobs[j].started && !s.jobs[j].deleted
    case DaemonRecv => s.daemonUp && s.up != [] && !FatalRecon(s.jobs, s.up[0])
    case DaemonDisconnect(kept) => s.daemonUp && kept <= |s.down|
    case AgentConnect => !s.agentUp && !s.daemonUp
    case AgentRecv(_) => s.agentUp && s.down != [] && (policy == ResolveSettled && s.down[0] == ReconReq ==> NoEnding(s.entries))
    case ProcessExit(i, _, _) => i < |s.entries| && !s.entries[i].proc.Done?
    case AgentDisconnect(kept) => s.agentUp && kept <= |s.up|
  }

  // A recon that names a job missing from the table stops the daemon.
  predicate FatalRecon(jobs: map<JobId, Job>, m: Up) {
    m.Recon? && exists i :: 0 <= i < |m.items| && m.items[i].job !in jobs
  }

  function Apply(s: System, e: Event): System
    requires Enabled(s, e, ResolveAny)
  {
    match e
    case AddJob(j, st) => s.(jobs := s.jobs[j := Job(st, false, false)])
    case ModJob(j, st) => s.(jobs := s.jobs[j := s.jobs[j].(state := st)])
    case DeleteJob(j) => s.(jobs := s.jobs[j := s.jobs[j].(state := NoState, deleted := true)])
    case CleanupJob(j) => s.(jobs := s.jobs - {j})
    case ResolveUnknown(j, st) => s.(jobs := s.jobs[j := s.jobs[j].(state := st)])
    case SendStart(j) => ToAgent(s.(jobs := s.jobs[j := s.jobs[j].(started := true)]), StartJob(j))
    case DaemonRecv => DaemonReceives(s.(up := s.up[1..]), s.up[0])
    case DaemonDisconnect(kept) =>
      s.(jobs := MarkUnknown(s.jobs), daemonUp := false, loggedIn := false, up := [], down := s.down[..kept])
    case AgentConnect => s.(daemonUp := true, loggedIn := false, agentUp := true, down := [], up := [Login])
    case AgentRecv(spawned) => AgentReceives(s.(down := s.down[1..]), s.down[0], spawned)
    case ProcessExit(i, ok, reported) =>
      if !reported then s.(entries := s.entries[i := s.entries[i].(proc := Ending)])
      else SendCompletion(s, i, ok)
    case AgentDisconnect(kept) => s.(agentUp := false, down := [], up := s.up[..kept])
  }

  // A message written to a connection the other side has closed is lost.
  function ToAgent(s: System, m: Down): System {
    if s.agentUp then s.(down := s.down + [m]) else s
  }

  function ToDaemon(s: System, m: Up): System {
    if s.daemonUp then s.(up := s.up + [m]) else s
  }

  function MarkUnknown(jobs: map<JobId, Job>): map<JobId, Job> {
    map j | j in jobs :: if jobs[j].started || jobs[j].state == Running then Job(Unknown, false, false) else jobs[j]
  }

  function Finished(ok: bool): JobState {
    if ok then Completed else Exited
  }

  function DaemonReceives(s: System, m: Up): System {
    match m
    case Login => ToAgent(s.(loggedIn := true, recon := true), ReconReq)
    case JobStarted(j) =>
      if j !in s.jobs then s else s.(jobs := s.jobs[j := s.jobs[j].(state := Running, started := false)])
    case JobCompleted(j, ok) =>
      if j !in s.jobs then s else s.(jobs := s.jobs[j := s.jobs[j].(state := Finished(ok), started := false)])
    case Recon(items) => ToAgent(s.(jobs := ReconAll(s.jobs, items), recon := false), ReconComplete)
  }

  function ReconAll(jobs: map<JobId, Job>, items: seq<Entry>): map<JobId, Job> {
    if items == [] then jobs else ReconAll(ReconOne(jobs, items[0]), items[1..])
  }

  function ReconOne(jobs: map<JobId, Job>, item: Entry): map<JobId, Job> {
    if item.job !in jobs then jobs else
    match item.proc
    case Live => jobs[item.job := jobs[item.job].(state := Running)]
    case Ending => jobs
    case Done(ok) => jobs[item.job := jobs[item.job].(state := Finished(ok))]
  }

  function AgentReceives(s: System, m: Down, spawned: bool): System {
    match m
    case StartJob(j) =>
      if spawned then ToDaemon(s.(entries := [Entry(j, Live)] + s.entries), JobStarted(j))
      else ToDaemon(s, JobCompleted(j, false))
    case ReconReq => ToDaemon(s.(inRecon := true), Recon(s.entries))
    case ReconComplete => s.(entries := DropDone(s.entries), inRecon := false)
  }

  function DropDone(es: seq<Entry>): seq<Entry> {
    if es == [] then [] else (if es[0].proc.Done? then [] else [es[0]]) + DropDone(es[1..])
  }

  function SendCompletion(s: System, i: nat, ok: bool): System
    requires i < |s.entries|
  {
    if !s.agentUp || s.inRecon then s.(entries := s.entries[i := s.entries[i].(proc := Done(ok))])
    else ToDaemon(s.(entries := s.entries[..i] + s.entries[i + 1..]), JobCompleted(s.entries[i].job, ok))
  }

  // -------------------------------------------------------------------------
  // Runs
  // -------------------------------------------------------------------------

  predicate Initial(s: System) {
    !s.daemonUp && !s.loggedIn && !s.agentUp && !s.inRecon && s.entries == [] && s.down == [] && s.up == [] &&
    forall j :: j in s.jobs ==> Waiting(s.jobs[j].state) && !s.jobs[j].started && !s.jobs[j].deleted
  }

  predicate IsRun(s: System, events: seq<Event>, policy: Policy)
    decreases events
  {
    events == [] || (Enabled(s, events[0], policy) && IsRun(Apply(s, events[0]), events[1..], policy))
  }

  function Run(s: System, events: seq<Event>, policy: Policy): System
    requires IsRun(s, events, policy)
    decreases events
  {
    if events == [] then s else Run(Apply(s, events[0]), events[1..], policy)
  }

  // -------------------------------------------------------------------------
  // The invariant
  // -------------------------------------------------------------------------

  predicate HasDone(es: seq<Entry>, j: JobId) {
    Entry(j, Done(true)) in es || Entry(j, Done(false)) in es
  }

  predicate HasProcess(es: seq<Entry>, j: JobId) {
    Entry(j, Live) in es || Entry(j, Ending) in es
  }

  predicate HasCompletion(up: seq<Up>, j: JobId) {
    JobCompleted(j, true) in up || JobCompleted(j, false) in up
  }

  predicate CompletionOf(m: Up, j: JobId) {
    m.JobCompleted? && m.job == j
  }

  predicate EndsInRecon(up: seq<Up>) {
    up != [] && up[|up| - 1].Recon?
  }

  predicate Quiet(up: seq<Up>) {
    forall i :: 0 <= i < |up| ==> !up[i].Login? && !up[i].Recon?
  }

  predicate Starts(down: seq<Down>) {
    forall i :: 0 <= i < |down| ==> down[i].StartJob?
  }

  // Where a session stands while both sides are connected. Each of the four handshake
  // messages exists in exactly one of the first four phases.
  predicate LoginPhase(s: System) {
    !s.loggedIn && s.down == [] && s.up != [] && s.up[0] == Login && Quiet(s.up[1..])
  }

  predicate RequestPhase(s: System) {
    s.loggedIn && s.recon && s.down == [ReconReq] && Quiet(s.up)
  }

  predicate ReconPhase(s: System) {
    s.loggedIn && s.recon && s.inRecon && s.down == [] && EndsInRecon(s.up) && Quiet(s.up[..|s.up| - 1])
  }

  predicate CompletePhase(s: System) {
    s.loggedIn && !s.recon && s.inRecon && s.up == [] &&
    s.down != [] && s.down[0] == ReconComplete && Starts(s.down[1..])
  }

  predicate NormalPhase(s: System) {
    s.loggedIn && !s.recon && !s.inRecon && Quiet(s.up) && Starts(s.down)
  }

  // After the agent has gone the daemon still reads what had reached it.
  predicate DaemonOnly(s: System) {
    && s.down == []
    && (Quiet(s.up)
        || (s.up != [] && s.up[0] == Login && !s.loggedIn && Quiet(s.up[1..]))
        || (EndsInRecon(s.up) && s.loggedIn && s.recon && Quiet(s.up[..|s.up| - 1])))
  }

  // And the agent what had reached it after the daemon has gone.
  predicate AgentOnly(s: System) {
    s.up == [] && !s.loggedIn && (s.down == [] || Starts(s.down[1..]))
  }

  predicate SessionInv(s: System) {
    if s.daemonUp && s.agentUp then
      LoginPhase(s) || RequestPhase(s) || ReconPhase(s) || CompletePhase(s) || NormalPhase(s)
    else if s.daemonUp then DaemonOnly(s)
    else if s.agentUp then AgentOnly(s)
    else s.up == [] && s.down == [] && !s.loggedIn
  }

  // The key fact: a job the scheduler may start has nothing outstanding at the agent.
  predicate NothingOutstanding(s: System, j: JobId) {
    StartJob(j) !in s.down && !HasProcess(s.entries, j) && JobStarted(j) !in s.up && !HasCompletion(s.up, j)
  }

  predicate OneStart(down: seq<Down>, j: JobId) {
    forall p, q :: 0 <= p < q < |down| ==> !(down[p] == StartJob(j) && down[q] == StartJob(j))
  }

  // At most one start report and one completion are on their way, in that order.
  predicate OneReport(up: seq<Up>, j: JobId) {
    forall p, q :: 0 <= p < q < |up| ==>
      && (CompletionOf(up[p], j) ==> !CompletionOf(up[q], j))
      && (CompletionOf(up[p], j) || up[p] == JobStarted(j) ==> up[q] != JobStarted(j))
  }

  predicate OneEntry(es: seq<Entry>, j: JobId) {
    forall p, q :: 0 <= p < q < |es| ==> !(es[p].job == j && es[q].job == j)
  }

  predicate JobInv(s: System, j: JobId, policy: Policy) {
    && (!Active(s.jobs, j) ==> NothingOutstanding(s, j))
    && (StartJob(j) in s.down ==> !HasProcess(s.entries, j) && !HasCompletion(s.up, j) && JobStarted(j) !in s.up)
    && (HasProcess(s.entries, j) ==> !HasCompletion(s.up, j))
    && OneStart(s.down, j) && OneReport(s.up, j) && OneEntry(s.entries, j)
    && (StartJob(j) in s.down && HasDone(s.entries, j) ==> s.down[0] == ReconComplete)
    && (JobStarted(j) in s.up || (StartJob(j) in s.down && s.daemonUp) ==>
          j in s.jobs && s.jobs[j].started && s.jobs[j].state == Pending)
    && (j in s.jobs && s.jobs[j].deleted ==> !Active(s.jobs, j))
    && (s.agentUp && s.daemonUp && NormalPhase(s) ==> !HasDone(s.entries, j))
    && (EndsInRecon(s.up) ==> ReconItemInv(s, s.up[|s.up| - 1].items, j, policy))
    && (policy == ResolveSettled && Ready(s) && j in s.jobs && s.jobs[j].state == Unknown ==> NothingOutstanding(s, j))
  }

  // What a recon on its way says is still so, up to processes that have ended since.
  predicate ReconItemInv(s: System, items: seq<Entry>, j: JobId, policy: Policy) {
    && (HasDone(items, j) ==> HasDone(s.entries, j))
    && (HasProcess(items, j) ==> Active(s.jobs, j) && !HasCompletion(s.up, j))
    && (HasProcess(s.entries, j) ==> HasProcess(items, j))
    && (policy == ResolveSettled ==> Entry(j, Ending) !in items)
  }

  ghost predicate Inv(s: System, policy: Policy) {
    SessionInv(s) && forall j :: JobInv(s, j, policy)
  }

  // -------------------------------------------------------------------------
  // Preservation, one event at a time
  // -------------------------------------------------------------------------

  lemma SessionKept(s: System, e: Event, policy: Policy)
    requires SessionInv(s) && Enabled(s, e, policy)
    ensures SessionInv(Apply(s, e))
  {
    if e.DaemonRecv? || e.AgentRecv? || e.DaemonDisconnect? || e.AgentDisconnect? {
      hide SessionInv, Apply;
      match e
      case DaemonRecv => DaemonRecvSession(s, policy);
      case AgentRecv(spawned) => AgentRecvSession(s, spawned, policy);
      case _ => DisconnectSession(s, e, policy);
    }
  }

  lemma DisconnectSession(s: System, e: Event, policy: Policy)
    requires SessionInv(s) && Enabled(s, e, policy) && (e.DaemonDisconnect? || e.AgentDisconnect?)
    ensures SessionInv(Apply(s, e))
  {
    if e.AgentDisconnect? && s.daemonUp && e.kept > 0 {
      var up := s.up[..e.kept];
      assert up[0] == s.up[0] && up[1..] == s.up[1..][..e.kept - 1];
      assert e.kept == |s.up| || up == s.up[..|s.up| - 1][..e.kept];
      assert e.kept == |s.up| ==> up == s.up;
    }
    if e.DaemonDisconnect? && s.agentUp && e.kept > 0 {
      assert s.down[..e.kept][1..] == s.down[1..][..e.kept - 1];
    }
  }

  lemma QuietTail(up: seq<Up>)
    requires up != [] && Quiet(up)
    ensures Quiet(up[1..]) && !up[0].Login? && !up[0].Recon?
  {
  }

  lemma DaemonRecvSession(s: System, policy: Policy)
    requires SessionInv(s) && Enabled(s, DaemonRecv, policy)
    ensures SessionInv(Apply(s, DaemonRecv))
  {
    var s' := Apply(s, DaemonRecv);
    match s.up[0]
    case Login =>
      assert Quiet(s.up[1..]);
      assert s'.agentUp ==> RequestPhase(s');
    case Recon(items) =>
      assert s'.up == [];
      assert s'.agentUp ==> CompletePhase(s');
    case _ =>
      ReportSession(s, s');
  }

  lemma ReportSession(s: System, s': System)
    requires SessionInv(s) && s.daemonUp && s.up != [] && (s.up[0].JobStarted? || s.up[0].JobCompleted?)
    requires s' == s.(up := s.up[1..], jobs := s'.jobs)
    ensures SessionInv(s')
  {
    if EndsInRecon(s.up) {
      assert EndsInRecon(s'.up);
      assert s'.up[..|s'.up| - 1] == s.up[..|s.up| - 1][1..];
      QuietTail(s.up[..|s.up| - 1]);
    } else {
      QuietTail(s.up);
    }
  }

  lemma AgentRecvSession(s: System, spawned: bool, policy: Policy)
    requires SessionInv(s) && Enabled(s, AgentRecv(spawned), policy)
    ensures SessionInv(Apply(s, AgentRecv(spawned)))
  {
  }

  lemma UserStepJob(s: System, e: Event, j: JobId, policy: Policy)
    requires policy != ResolveAny
    requires SessionInv(s) && JobInv(s, j, policy) && Enabled(s, e, policy)
    requires e.AddJob? || e.ModJob? || e.DeleteJob? || e.CleanupJob? || e.ResolveUnknown?
    ensures JobInv(Apply(s, e), j, policy)
  {
  }

  lemma SendStartJob(s: System, k: JobId, j: JobId, policy: Policy)
    requires SessionInv(s) && JobInv(s, j, policy) && Enabled(s, SendStart(k), policy)
    ensures JobInv(Apply(s, SendStart(k)), j, policy)
  {
  }

  lemma DaemonDisconnectJob(s: System, kept: nat, j: JobId, policy: Policy)
    requires SessionInv(s) && JobInv(s, j, policy) && Enabled(s, DaemonDisconnect(kept), policy)
    ensures JobInv(Apply(s, DaemonDisconnect(kept)), j, policy)
  {
  }

  lemma AgentDisconnectJob(s: System, kept: nat, j: JobId, policy: Policy)
    requires SessionInv(s) && JobInv(s, j, policy) && Enabled(s, AgentDisconnect(kept), policy)
    ensures JobInv(Apply(s, AgentDisconnect(kept)), j, policy)
  {
  }

  lemma AgentConnectJob(s: System, j: JobId, policy: Policy)
    requires SessionInv(s) && JobInv(s, j, policy) && Enabled(s, AgentConnect, policy)
    ensures JobInv(Apply(s, AgentConnect), j, policy)
  {
  }

  lemma {:induction false} ReconAllJob(jobs: map<JobId, Job>, items: seq<Entry>, j: JobId)
    ensures var after := ReconAll(jobs, items);
            && after.Keys == jobs.Keys
            && (Active(jobs, j) && !HasDone(items, j) ==> Active(after, j))
            && (!Active(after, j) ==> !Active(jobs, j) || HasDone(items, j))
            && (Active(after, j) ==> Active(jobs, j) || HasProcess(items, j))
            && (j in jobs ==> after[j].deleted == jobs[j].deleted && after[j].started == jobs[j].started)
            && (j in jobs && after[j].state == Unknown ==> jobs[j].state == Unknown && Entry(j, Live) !in items)
  {
    if items != [] {
      ReconAllJob(ReconOne(jobs, items[0]), items[1..], j);
    }
  }

  lemma UpTail(up: seq<Up>, j: JobId)
    requires up != [] && OneReport(up, j)
    ensures OneReport(up[1..], j)
    ensures HasCompletion(up[1..], j) ==> HasCompletion(up, j)
    ensures JobStarted(j) in up[1..] ==> JobStarted(j) in up
    ensures up[0] == JobStarted(j) ==> JobStarted(j) !in up[1..]
    ensures CompletionOf(up[0], j) ==> JobStarted(j) !in up[1..] && !HasCompletion(up[1..], j)
    ensures up[0] in up
  {
    forall q | 1 <= q < |up| && CompletionOf(up[0], j) ensures !CompletionOf(up[q], j) { }
  }

  lemma DaemonLoginJob(s: System, j: JobId, policy: Policy)
    requires SessionInv(s) && JobInv(s, j, policy) && Enabled(s, DaemonRecv, policy) && s.up[0].Login?
    ensures JobInv(Apply(s, DaemonRecv), j, policy)
  {
  }

  // Reading a report: the channel gets shorter and the job's record changes.
  lemma DaemonReportJob(s: System, s': System, j: JobId, policy: Policy)
    requires SessionInv(s) && JobInv(s, j, policy) && Enabled(s, DaemonRecv, policy)
    requires s.up[0].JobStarted? || s.up[0].JobCompleted?
    requires s' == s.(up := s.up[1..], jobs := s'.jobs)
    requires s.up[0].job != j ==> (j in s.jobs <==> j in s'.jobs) && (j in s.jobs ==> s.jobs[j] == s'.jobs[j])
    requires s.up[0].job == j && j in s.jobs ==>
               j in s'.jobs && !s'.jobs[j].started && (s.up[0].JobStarted? ==> s'.jobs[j].state == Running)
               && (s.up[0].JobCompleted? ==> s'.jobs[j].state in {Completed, Exited})
               && s'.jobs[j].deleted == s.jobs[j].deleted
    requires s.up[0].job == j && j !in s.jobs ==> j !in s'.jobs
    ensures JobInv(s', j, policy)
  {
    UpTail(s.up, j);
    assert NormalPhase(s') ==> NormalPhase(s) || !(s.agentUp && s.daemonUp);
    assert EndsInRecon(s'.up) ==> EndsInRecon(s.up) && s'.up[|s'.up| - 1] == s.up[|s.up| - 1];
  }

  lemma DaemonStartedJob(s: System, j: JobId, policy: Policy)
    requires SessionInv(s) && JobInv(s, j, policy) && Enabled(s, DaemonRecv, policy) && (s.up[0].JobStarted? || s.up[0].JobCompleted?)
    ensures JobInv(Apply(s, DaemonRecv), j, policy)
  {
    DaemonReportJob(s, Apply(s, DaemonRecv), j, policy);
  }

  lemma DaemonReconJob(s: System, j: JobId, policy: Policy)
    requires SessionInv(s) && JobInv(s, j, policy) && Enabled(s, DaemonRecv, policy) && s.up[0].Recon?
    ensures JobInv(Apply(s, DaemonRecv), j, policy)
  {
    ReconAllJob(s.jobs, s.up[0].items, j);
    assert |s.up| == 1;
  }

  lemma {:induction false} DropDoneJob(es: seq<Entry>, j: JobId)
    requires OneEntry(es, j)
    ensures !HasDone(DropDone(es), j)
    ensures HasProcess(DropDone(es), j) <==> HasProcess(es, j)
    ensures OneEntry(DropDone(es), j)
    ensures (exists p :: 0 <= p < |DropDone(es)| && DropDone(es)[p].job == j)
            ==> (exists p :: 0 <= p < |es| && es[p].job == j)
  {
    if es != [] {
      DropDoneJob(es[1..], j);
    }
  }

  lemma EntryKinds(es: seq<Entry>, j: JobId)
    requires !HasProcess(es, j) && !HasDone(es, j)
    ensures forall p :: 0 <= p < |es| ==> es[p].job != j
  {
    forall p | 0 <= p < |es| ensures es[p].job != j {
      assert es[p] in es;
      match es[p].proc
      case Done(ok) => assert ok == true || ok == false;
      case _ =>
    }
  }

  lemma AgentSpawnJob(s: System, j: JobId, policy: Policy)
    requires SessionInv(s) && JobInv(s, j, policy) && Enabled(s, AgentRecv(true), policy) && s.down[0].StartJob?
    ensures JobInv(Apply(s, AgentRecv(true)), j, policy)
  {
    if s.down[0].job == j { EntryKinds(s.entries, j); }
  }

  lemma AgentSpawnFailJob(s: System, j: JobId, policy: Policy)
    requires SessionInv(s) && JobInv(s, j, policy) && Enabled(s, AgentRecv(false), policy) && s.down[0].StartJob?
    ensures JobInv(Apply(s, AgentRecv(false)), j, policy)
  {
  }

  lemma AgentReconReqJob(s: System, spawned: bool, j: JobId, policy: Policy)
    requires SessionInv(s) && JobInv(s, j, policy) && Enabled(s, AgentRecv(spawned), policy) && s.down[0].ReconReq?
    ensures JobInv(Apply(s, AgentRecv(spawned)), j, policy)
  {
  }

  lemma AgentReconCompleteJob(s: System, spawned: bool, j: JobId, policy: Policy)
    requires SessionInv(s) && JobInv(s, j, policy) && Enabled(s, AgentRecv(spawned), policy) && s.down[0].ReconComplete?
    ensures JobInv(Apply(s, AgentRecv(spawned)), j, policy)
  {
    DropDoneJob(s.entries, j);
  }

  lemma OtherEntriesStay(es: seq<Entry>, i: nat, x: Entry, y: Entry)
    requires i < |es| && x in es && x != es[i]
    ensures x in es[i := y] && x in es[..i] + es[i + 1..]
  {
    var k :| 0 <= k < |es| && es[k] == x;
    assert es[i := y][k] == x;
    if k < i { assert (es[..i] + es[i + 1..])[k] == x; } else { assert (es[..i] + es[i + 1..])[k - 1] == x; }
  }

  lemma ReplacedEntry(es: seq<Entry>, i: nat, pr: Proc, j: JobId)
    requires i < |es| && !es[i].proc.Done? && OneEntry(es, j)
    ensures var es' := es[i := es[i].(proc := pr)];
            && OneEntry(es', j)
            && (HasDone(es, j) ==> HasDone(es', j))
            && (HasProcess(es', j) ==> HasProcess(es, j))
            && (HasDone(es', j) ==> HasDone(es, j) || pr.Done?)
  {
    var y := es[i].(proc := pr);
    forall b | Entry(j, Done(b)) in es ensures Entry(j, Done(b)) in es[i := y] {
      OtherEntriesStay(es, i, Entry(j, Done(b)), y);
    }
    assert es[i] in es;
  }

  lemma RemovedEntry(es: seq<Entry>, i: nat, j: JobId)
    requires i < |es| && !es[i].proc.Done? && OneEntry(es, j)
    ensures var es' := es[..i] + es[i + 1..];
            && OneEntry(es', j)
            && (HasDone(es, j) <==> HasDone(es', j))
            && (HasProcess(es', j) ==> HasProcess(es, j))
            && (es[i].job == j ==> !HasProcess(es', j) && HasProcess(es, j))
  {
    forall b | Entry(j, Done(b)) in es ensures Entry(j, Done(b)) in es[..i] + es[i + 1..] {
      OtherEntriesStay(es, i, Entry(j, Done(b)), es[i]);
    }
    assert es[i] in es;
  }

  lemma ExitKeptJob(s: System, i: nat, pr: Proc, j: JobId, policy: Policy)
    requires SessionInv(s) && JobInv(s, j, policy) && i < |s.entries| && !s.entries[i].proc.Done?
    requires pr.Done? ==> !s.agentUp || s.inRecon
    requires pr != Live
    ensures JobInv(s.(entries := s.entries[i := s.entries[i].(proc := pr)]), j, policy)
  {
    ReplacedEntry(s.entries, i, pr, j);
  }

  lemma ExitSentJob(s: System, i: nat, ok: bool, j: JobId, policy: Policy)
    requires SessionInv(s) && JobInv(s, j, policy) && i < |s.entries| && !s.entries[i].proc.Done?
    requires s.agentUp && !s.inRecon
    ensures JobInv(SendCompletion(s, i, ok), j, policy)
  {
    RemovedEntry(s.entries, i, j);
  }

  lemma ProcessExitJob(s: System, i: nat, ok: bool, reported: bool, j: JobId, policy: Policy)
    requires SessionInv(s) && JobInv(s, j, policy) && Enabled(s, ProcessExit(i, ok, reported), policy)
    ensures JobInv(Apply(s, ProcessExit(i, ok, reported)), j, policy)
  {
    if reported && s.agentUp && !s.inRecon {
      ExitSentJob(s, i, ok, j, policy);
    } else {
      ExitKeptJob(s, i, if reported then Done(ok) else Ending, j, policy);
    }
  }

  lemma JobKept(s: System, e: Event, j: JobId, policy: Policy)
    requires policy != ResolveAny
    requires SessionInv(s) && JobInv(s, j, policy) && Enabled(s, e, policy)
    ensures JobInv(Apply(s, e), j, policy)
  {
    match e
    case SendStart(k) => SendStartJob(s, k, j, policy);
    case DaemonRecv =>
      if s.up[0].Login? { DaemonLoginJob(s, j, policy); }
      else if s.up[0].Recon? { DaemonReconJob(s, j, policy); }
      else { DaemonStartedJob(s, j, policy); }
    case DaemonDisconnect(kept) => DaemonDisconnectJob(s, kept, j, policy);
    case AgentConnect => AgentConnectJob(s, j, policy);
    case AgentRecv(spawned) =>
      if s.down[0].ReconReq? { AgentReconReqJob(s, spawned, j, policy); }
      else if s.down[0].ReconComplete? { AgentReconCompleteJob(s, spawned, j, policy); }
      else if spawned { AgentSpawnJob(s, j, policy); }
      else { AgentSpawnFailJob(s, j, policy); }
    case ProcessExit(i, ok, reported) => ProcessExitJob(s, i, ok, reported, j, policy);
    case AgentDisconnect(kept) => AgentDisconnectJob(s, kept, j, policy);
    case _ => UserStepJob(s, e, j, policy);
  }

  lemma {:induction false} RunKept(s: System, events: seq<Event>, policy: Policy)
    requires policy != ResolveAny
    requires Inv(s, policy) && IsRun(s, events, policy)
    ensures Inv(Run(s, events, policy), policy)
    decreases events
  {
    if events != [] {
      SessionKept(s, events[0], policy);
      forall j ensures JobInv(Apply(s, events[0]), j, policy) { JobKept(s, events[0], j, policy); }
      RunKept(Apply(s, events[0]), events[1..], policy);
    }
  }

  // -------------------------------------------------------------------------
  // What holds in every run
  // -------------------------------------------------------------------------

  // At most one process per job, and a job the scheduler may start has nothing outstanding.
  lemma OneProcessPerJob(s: System, events: seq<Event>, policy: Policy)
    requires policy != ResolveAny
    requires Initial(s) && IsRun(s, events, policy)
    ensures var t := Run(s, events, policy);
            && (forall p, q :: 0 <= p < q < |t.entries| && t.entries[p].proc.Live? && t.entries[q].proc.Live? ==>
                  t.entries[p].job != t.entries[q].job)
            && (forall j :: !Active(t.jobs, j) ==> NothingOutstanding(t, j))
  {
    RunKept(s, events, policy);
    var t := Run(s, events, policy);
    forall p, q | 0 <= p < q < |t.entries| ensures t.entries[p].job != t.entries[q].job {
      assert JobInv(t, t.entries[p].job, policy);
    }
    forall j | !Active(t.jobs, j) ensures NothingOutstanding(t, j) { assert JobInv(t, j, policy); }
  }

  // Whatever report the daemon reads next fits its own record of the job: a start report names a
  // job it has flagged STARTED, a completion one that is STARTED, RUNNING or UNKNOWN, and a recon
  // names as not ended only such jobs. None of them is deleted. As ended a recon may name any job.
  lemma ReportsMatchRecords(s: System, events: seq<Event>, policy: Policy)
    requires policy != ResolveAny
    requires Initial(s) && IsRun(s, events, policy)
    requires Run(s, events, policy).up != []
    ensures var t := Run(s, events, policy);
            match t.up[0]
            case Login => !t.loggedIn
            case JobStarted(j) => j in t.jobs && t.jobs[j].started && t.jobs[j].state == Pending && !t.jobs[j].deleted
            case JobCompleted(j, _) => Active(t.jobs, j) && !t.jobs[j].deleted
            case Recon(items) =>
              && t.recon && |t.up| == 1
              && forall i :: 0 <= i < |items| && !items[i].proc.Done? ==> Active(t.jobs, items[i].job) && !t.jobs[items[i].job].deleted
  {
    RunKept(s, events, policy);
    var t := Run(s, events, policy);
    match t.up[0]
    case Login =>
    case JobStarted(j) => assert JobInv(t, j, policy); assert t.up[0] in t.up;
    case JobCompleted(j, ok) =>
      assert JobInv(t, j, policy);
      assert t.up[0] in t.up && ok in {true, false};
    case Recon(items) =>
      forall i | 0 <= i < |items| && !items[i].proc.Done?
        ensures Active(t.jobs, items[i].job) && !t.jobs[items[i].job].deleted
      {
        assert JobInv(t, items[i].job, policy);
        assert items[i] in items;
      }
  }
}
