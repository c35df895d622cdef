/** The START/STOP protocol over whole runs: what may be leased together, what a STOP bars for ever, and what
  evidence ends a job whose container may exist. */
module CommandProtocol {
  import opened Domain
  import opened Accounting
  import opened StoreSpec
  import opened StoreSteps
  import opened StoreInvariant
  import opened ReplanInvariant
  import opened StoreRuns
  import opened StepEffects
  import opened Occupancy

  /** Step `i` of the run hands out a command of this kind for this job. */
  ghost predicate Leases(st: State, steps: seq<Step>, i: nat, kind: CommandKind, job: Id) {
    i < |steps| && steps[i].LeaseStep? && steps[i].agentId in Run(st, steps[..i]).servers
    && exists c :: c in LeaseBatch(Run(st, steps[..i]), steps[i].agentId, steps[i].at, steps[i].limit)
                   && c.kind == kind && c.jobId == job
  }

  lemma LeasedCommand(st: State, steps: seq<Step>, i: nat, kind: CommandKind, job: Id) returns (id: Id)
    requires Leases(st, steps, i, kind, job)
    ensures var before := Run(st, steps[..i]);
      id in before.commands && before.commands[id].kind == kind && before.commands[id].jobId == job
      && Leasable(before, steps[i].agentId, before.commands[id], steps[i].at)
  {
    hide Leasable, LeaseBatch;
    var before := Run(st, steps[..i]);
    var c :| c in LeaseBatch(before, steps[i].agentId, steps[i].at, steps[i].limit) && c.kind == kind && c.jobId == job;
    LeasedIsLeasable(before, steps[i].agentId, steps[i].at, steps[i].limit, c);
    id :| id in before.commands && before.commands[id] == c;
  }

  // ---------------------------------------------------------------- A leased START

  /** A START is only handed out inside its window, for a live job, while every GPU of its reservation is present,
      healthy and accounted to that job and to no other live one. */
  lemma StartIsOwned(offlineAfter: int, steps: seq<Step>, i: nat, job: Id)
    requires LegalRun(Initial(offlineAfter), steps) && Leases(Initial(offlineAfter), steps, i, StartCommand, job)
    ensures var st := Run(Initial(offlineAfter), steps[..i]);
      && job in st.jobs && Dispatched(st.jobs[job])
      && var a := st.jobs[job].assignment.value;
         && (a.Window().Valid() ==> a.Window().Contains(steps[i].at))
         && a.serverId == steps[i].agentId && a.serverId in st.servers && |a.gpus| == st.jobs[job].resources.gpuCount
         && (forall u :: u in a.gpus ==>
                 exists g :: g in st.servers[a.serverId].gpus && g.uuid == u && Owned(st.jobs[job], g))
         && (forall k, u :: k in st.jobs && k != job && u in a.gpus ==> !Holds(st.jobs[k], a.serverId, u))
  {
    hide Run, LegalRun, Valid, Initial;
    PrefixIsLegal(Initial(offlineAfter), steps, i);
    ReachableIsValid(offlineAfter, steps[..i]);
    var id := LeasedCommand(Initial(offlineAfter), steps, i, StartCommand, job);
    DeliverableIsOwned(Run(Initial(offlineAfter), steps[..i]), steps[i].agentId, id, steps[i].at);
  }

  lemma DeliverableIsOwned(st: State, agentId: Id, id: Id, now: Time)
    requires Valid(st) && id in st.commands && st.commands[id].kind == StartCommand
    requires Leasable(st, agentId, st.commands[id], now)
    ensures var job := st.commands[id].jobId;
      && job in st.jobs && Dispatched(st.jobs[job])
      && var a := st.jobs[job].assignment.value;
         && (a.Window().Valid() ==> a.Window().Contains(now))
         && a.serverId == agentId && a.serverId in st.servers && |a.gpus| == st.jobs[job].resources.gpuCount
         && (forall u :: u in a.gpus ==>
                 exists g :: g in st.servers[a.serverId].gpus && g.uuid == u && Owned(st.jobs[job], g))
         && (forall k, u :: k in st.jobs && k != job && u in a.gpus ==> !Holds(st.jobs[k], a.serverId, u))
  {
    hide GPUsUnshared, ServersOk, HeldIsNotFree, CalendarExclusive, LaunchOk, DistinctIds, LogMatches;
    assert CommandOk(st.jobs, st.commands, st.commands[id]);
    var job := st.jobs[st.commands[id].jobId];
    assert JobOk(job) && Tenant(st.servers, job);
    assert forall u :: u in job.assignment.value.gpus ==> Holds(job, job.assignment.value.serverId, u);
  }

  // ---------------------------------------------------------------- A leased STOP

  /** The START can no longer take effect at or after `now`. */
  predicate Settled(st: State, job: Id, now: Time) {
    job in st.jobs && Launched(st.jobs[job])
    && var a := st.jobs[job].assignment.value;
       a.commandId in st.commands
       && (Acknowledged(st.commands[a.commandId]) || (a.Window().Valid() && now >= a.end))
  }

  lemma StopIsSettled(st: State, agentId: Id, id: Id, now: Time)
    requires Valid(st) && id in st.commands && st.commands[id].kind == StopCommand
    requires Leasable(st, agentId, st.commands[id], now)
    ensures Settled(st, st.commands[id].jobId, now)
  {
    hide GPUsUnshared, ServersOk, HeldIsNotFree, CalendarExclusive, Exclusive, Tenants, JobsOk;
    assert CommandOk(st.jobs, st.commands, st.commands[id]);
    var job := st.commands[id].jobId;
    assert LaunchOk(st.commands, st.jobs[job]);
    var start := st.jobs[job].assignment.value.commandId;
    assert CommandOk(st.jobs, st.commands, st.commands[start]);
  }

  lemma SettledStays(st: State, next: State, job: Id, now: Time, later: Time)
    requires Settled(st, job, now) && Progress(st, next) && now <= later
    ensures Settled(next, job, later)
  {
    assert Advances(st.jobs[job], next.jobs[job]);
    assert CommandEvolves(st.commands[st.jobs[job].assignment.value.commandId],
                          next.commands[st.jobs[job].assignment.value.commandId]);
  }

  lemma SettledBarsStart(st: State, agentId: Id, id: Id, now: Time)
    requires Valid(st) && id in st.commands && st.commands[id].kind == StartCommand
    requires Settled(st, st.commands[id].jobId, now)
    ensures !Leasable(st, agentId, st.commands[id], now)
  {
    hide GPUsUnshared, ServersOk, HeldIsNotFree, CalendarExclusive, Exclusive, Tenants, JobsOk, LaunchOk;
    assert CommandOk(st.jobs, st.commands, st.commands[id]);
  }

  /** Once a STOP of a job was handed out, its START is handed out neither in the same batch nor ever after, as
      long as the clock does not run backwards between the two polls: not even when the START's ACK was lost. */
  lemma StopBarsStart(offlineAfter: int, steps: seq<Step>, i: nat, k: nat, job: Id)
    requires LegalRun(Initial(offlineAfter), steps)
    requires Leases(Initial(offlineAfter), steps, i, StopCommand, job)
    requires i <= k < |steps| && steps[k].LeaseStep? && steps[i].at <= steps[k].at
    ensures !Leases(Initial(offlineAfter), steps, k, StartCommand, job)
  {
    hide Run, LegalRun, Valid, Initial, Leasable, Settled, Progress;
    var init := Initial(offlineAfter);
    InitialIsValid(offlineAfter);
    PrefixIsLegal(init, steps, i);
    PrefixIsLegal(init, steps, k);
    ReachableIsValid(offlineAfter, steps[..i]);
    ReachableIsValid(offlineAfter, steps[..k]);
    var stop := LeasedCommand(init, steps, i, StopCommand, job);
    StopIsSettled(Run(init, steps[..i]), steps[i].agentId, stop, steps[i].at);
    RunProgresses(init, steps[..k], i);
    assert steps[..k][..i] == steps[..i];
    SettledStays(Run(init, steps[..i]), Run(init, steps[..k]), job, steps[i].at, steps[k].at);
    if Leases(init, steps, k, StartCommand, job) {
      var start := LeasedCommand(init, steps, k, StartCommand, job);
      SettledBarsStart(Run(init, steps[..k]), steps[k].agentId, start, steps[k].at);
    }
  }

  // ---------------------------------------------------------------- Evidence ends a launched job

  /** A managed container of the job. */
  predicate Claims(c: Container, job: Id) {
    c.origin == ManagedOrigin && c.jobId == job && job != NO_ID
  }

  /** The Agent reported, for the first time, that it could not launch. */
  predicate LaunchFailure(st: State, step: Step, job: Job) {
    step.AckStep? && job.assignment.Some? && step.commandId == job.assignment.value.commandId
    && !step.ack.succeeded && step.agentId == job.assignment.value.serverId
    && step.commandId in st.commands && !Acknowledged(st.commands[step.commandId])
    && job.status in {Assigned, Starting, Stopping}
  }

  /** A complete inventory of the job's own host. */
  ghost predicate OwnInventory(st: State, step: Step, job: Job) {
    step.InventoryStep? && job.assignment.Some? && step.agentId == job.assignment.value.serverId
    && Outcome(st, step).Ok? && Complete(step.report)
  }

  /** No active container claims the job, and the first one that does has ended. */
  predicate SeenEnded(report: Report, job: Id) {
    && (forall c :: c in report.containers && Claims(c, job) ==> !Consumes(c.state))
    && exists i :: 0 <= i < |report.containers| && Claims(report.containers[i], job)
                   && report.containers[i].state in {Exited, Dead}
                   && forall k :: 0 <= k < i ==> !Claims(report.containers[k], job)
  }

  /** No container claims the job, and a START or STOP succeeded no later than the observation. */
  ghost predicate SeenAbsent(st: State, report: Report, job: Job) {
    && (forall c :: c in report.containers ==> !Claims(c, job.id))
    && Absent(st.commands, job, report.observedAt)
  }

  ghost predicate Evidence(st: State, step: Step, job: Job) {
    || LaunchFailure(st, step, job)
    || (OwnInventory(st, step, job) && (SeenEnded(step.report, job.id) || SeenAbsent(st, step.report, job)))
  }

  lemma {:induction false} ObservedMeans(cs: seq<Container>, job: Id)
    ensures match Observed(cs, job)
      case None => forall c :: c in cs ==> !Claims(c, job)
      case Some(o) =>
        && o in cs && Claims(o, job)
        && (!Consumes(o.state) ==>
              && (forall c :: c in cs && Claims(c, job) ==> !Consumes(c.state))
              && exists i :: 0 <= i < |cs| && cs[i] == o && forall k :: 0 <= k < i ==> !Claims(cs[k], job))
  {
    if cs != [] {
      var front := cs[..|cs| - 1];
      ObservedMeans(front, job);
      assert cs == front + [cs[|cs| - 1]];
      if Observed(front, job).Some? && !Consumes(Observed(front, job).value.state) {
        var i :| 0 <= i < |front| && front[i] == Observed(front, job).value
          && forall k :: 0 <= k < i ==> !Claims(front[k], job);
        assert cs[i] == front[i] && forall k :: 0 <= k < i ==> cs[k] == front[k];
      }
    }
  }

  lemma EndedIsObserved(report: Report, job: Id)
    ensures SeenEnded(report, job) <==>
      Observed(report.containers, job).Some? && Observed(report.containers, job).value.state in {Exited, Dead}
  {
    ObservedMeans(report.containers, job);
  }

  lemma ReconcileNeedsEvidence(st: State, step: Step, job: Job)
    requires step.InventoryStep? && JobOk(job) && !job.status.Terminal() && Launched(job)
      && job.assignment.value.serverId == step.agentId
    ensures ReconcileJob(job, step.agentId, Stamped(step.report), st.commands).status.Terminal()
       <==> SeenEnded(step.report, job.id) || SeenAbsent(st, step.report, job)
  {
    hide SeenEnded, StopConfirmed, AssignmentOk;
    EndedIsObserved(step.report, job.id);
    ObservedMeans(step.report.containers, job.id);
  }

  /** A launched live job whose START is no longer waiting in the queue becomes terminal in a step exactly when the
      step brings evidence: a failed launch, or a complete inventory of its own host without an active container. */
  lemma TerminalOnlyByEvidence(st: State, step: Step, id: Id)
    requires Valid(st) && Legal(st, step)
    requires id in st.jobs && !st.jobs[id].status.Terminal() && Launched(st.jobs[id])
    requires CommandAt(st.commands, st.jobs[id].assignment.value.commandId).status != Pending
    ensures id in Apply(st, step).jobs
    ensures Apply(st, step).jobs[id].status.Terminal() <==> Evidence(st, step, st.jobs[id])
  {
    hide Valid, Legal, SeenEnded, SeenAbsent, Evolves, Apply, JobOk, JobsOk, ServersOk;
    JobsAreOk(st, id);
    AllJobsAreOk(st);
    LaunchedShape(st.jobs[id]);
    match step
    case InventoryStep(agentId, report) => InventoryNeedsEvidence(st, step, id);
    case AckStep(_, _, _, _) => AckNeedsEvidence(st, step, id);
    case ReplanStep(at, answer) => ReplanIsFramed(st, at, answer);
    case _ => OthersNeedEvidence(st, step, id);
  }

  lemma AllJobsAreOk(st: State)
    requires Valid(st)
    ensures JobsOk(st.jobs) && ServersOk(st) && forall k :: k in st.commands ==> st.commands[k].id == k
  {
  }

  lemma LaunchedShape(job: Job)
    requires JobOk(job) && Launched(job) && !job.status.Terminal()
    ensures job.status != Queued && job.assignment.value.state in {ReservedState, AllocatedState}
    ensures forall at :: !job.Replannable(at)
  {
  }

  lemma InventoryNeedsEvidence(st: State, step: Step, id: Id)
    requires Valid(st) && Legal(st, step) && step.InventoryStep? && id in st.jobs
    requires !st.jobs[id].status.Terminal() && Launched(st.jobs[id])
    ensures id in Apply(st, step).jobs
    ensures Apply(st, step).jobs[id].status.Terminal() <==> Evidence(st, step, st.jobs[id])
  {
    hide Valid, Legal, SeenEnded, SeenAbsent, JobOk, NormalizeGPUs, ForeignGPU, ReconcileJob;
    JobsAreOk(st, id);
    if st.jobs[id].assignment.value.serverId == step.agentId {
      ReconcileNeedsEvidence(st, step, st.jobs[id]);
    } else {
      ElsewhereUntouched(st.jobs[id], step.agentId, Stamped(step.report), st.commands);
    }
  }

  lemma ElsewhereUntouched(job: Job, serverId: Id, report: Report, commands: map<Id, Command>)
    requires job.assignment.Some? && job.assignment.value.serverId != serverId
    ensures ReconcileJob(job, serverId, report, commands) == job
  {
  }

  lemma AckNeedsEvidence(st: State, step: Step, id: Id)
    requires Valid(st) && step.AckStep? && id in st.jobs
    requires !st.jobs[id].status.Terminal() && Launched(st.jobs[id])
    ensures id in Apply(st, step).jobs
    ensures Apply(st, step).jobs[id].status.Terminal() <==> Evidence(st, step, st.jobs[id])
  {
    hide GPUsUnshared, ServersOk, HeldIsNotFree, CalendarExclusive, Exclusive, Tenants, JobOk, Apply, Reaccounts;
    AckEffect(st, step);
    assert LaunchOk(st.commands, st.jobs[id]);
    if step.commandId in st.commands {
      assert CommandOk(st.jobs, st.commands, st.commands[step.commandId]);
    }
  }

  /** A launched, delivered, live job. */
  ghost predicate InFlight(st: State, id: Id) {
    && id in st.jobs && !st.jobs[id].status.Terminal() && Launched(st.jobs[id]) && st.jobs[id].status != Queued
    && st.jobs[id].id == id && st.jobs[id].assignment.value.state in {ReservedState, AllocatedState}
    && CommandAt(st.commands, st.jobs[id].assignment.value.commandId).status != Pending
  }

  lemma StopSpares(st: State, step: Step, id: Id)
    requires JobsOk(st.jobs) && ServersOk(st) && step.StopStep? && InFlight(st, id)
    requires forall k :: k in st.commands ==> st.commands[k].id == k
    ensures id in Apply(st, step).jobs && !Apply(st, step).jobs[id].status.Terminal()
  {
    hide JobOk, Apply, ServersOk, Reaccounts, KeepsCommands, StopTermination;
    StopEffect(st, step);
  }

  lemma StatusSpares(st: State, step: Step, id: Id)
    requires JobsOk(st.jobs) && ServersOk(st) && step.StatusStep? && Legal(st, step) && InFlight(st, id)
    ensures id in Apply(st, step).jobs && !Apply(st, step).jobs[id].status.Terminal()
  {
    hide JobOk, Apply, ServersOk, Reaccounts;
    StatusEffect(st, step);
  }

  lemma CommitSpares(st: State, step: Step, id: Id)
    requires JobsOk(st.jobs) && step.CommitStep? && InFlight(st, id)
    ensures id in Apply(st, step).jobs && !Apply(st, step).jobs[id].status.Terminal()
  {
    hide JobOk, PlacementMatches, LogMatches, ReserveGPUs;
  }

  lemma OthersNeedEvidence(st: State, step: Step, id: Id)
    requires JobsOk(st.jobs) && ServersOk(st) && Legal(st, step) && InFlight(st, id)
    requires forall k :: k in st.commands ==> st.commands[k].id == k
    requires !step.InventoryStep? && !step.AckStep? && !step.ReplanStep?
    ensures id in Apply(st, step).jobs && !Apply(st, step).jobs[id].status.Terminal()
  {
    hide JobOk, ServersOk, LeaseBatch, PlacementMatches, Admitted, CommitAssignment, RequestStop, SetJobStatus,
         NewCommand;
    match step
    case StatusStep(_, _, _, _) => StatusSpares(st, step, id);
    case StopStep(_, _, _) => StopSpares(st, step, id);
    case CommitStep(_, _, _, _) => CommitSpares(st, step, id);
    case _ =>
  }

  lemma LeaseDelivers(st: State, step: Step, id: Id)
    requires step.LeaseStep? && step.agentId in st.servers && id in st.commands
    requires st.commands[id] in LeaseBatch(st, step.agentId, step.at, step.limit)
    ensures id in Apply(st, step).commands && Apply(st, step).commands[id].status == Delivered
  {
    hide LeaseBatch;
  }

  /** From the moment a START was handed out, whatever interleaving follows, only evidence ends the job. */
  lemma LeasedJobNeedsEvidence(offlineAfter: int, steps: seq<Step>, i: nat, k: nat, job: Id)
    requires LegalRun(Initial(offlineAfter), steps) && i < k < |steps|
    requires Leases(Initial(offlineAfter), steps, i, StartCommand, job)
    requires job in Run(Initial(offlineAfter), steps[..k]).jobs
      && !Run(Initial(offlineAfter), steps[..k]).jobs[job].status.Terminal()
    ensures job in Run(Initial(offlineAfter), steps[..k + 1]).jobs
    ensures Run(Initial(offlineAfter), steps[..k + 1]).jobs[job].status.Terminal()
       <==> Evidence(Run(Initial(offlineAfter), steps[..k]), steps[k], Run(Initial(offlineAfter), steps[..k]).jobs[job])
  {
    hide Legal, Valid, Initial, Leases, LegalRun, Progress, Apply, Evidence, Run;
    var init := Initial(offlineAfter);
    RunStep(init, steps, k);
    StepIsLegal(init, steps, k);
    InitialIsValid(offlineAfter);
    PrefixIsLegal(init, steps, i + 1);
    PrefixIsLegal(init, steps, k);
    ReachableIsValid(offlineAfter, steps[..i + 1]);
    ReachableIsValid(offlineAfter, steps[..k]);
    assert steps[..k + 1][..k] == steps[..k] && steps[..i + 1][..i] == steps[..i]
      && steps[..k][..i + 1] == steps[..i + 1];
    var start := LeasedStart(init, steps, i, job);
    OneStart(Run(init, steps[..i + 1]), start);
    RunProgresses(init, steps[..k], i + 1);
    DeliveredStays(Run(init, steps[..i + 1]), Run(init, steps[..k]), start, job);
    TerminalOnlyByEvidence(Run(init, steps[..k]), steps[k], job);
  }

  lemma RunStep(st: State, steps: seq<Step>, k: nat)
    requires k < |steps|
    ensures Run(st, steps[..k + 1]) == Apply(Run(st, steps[..k]), steps[k])
  {
    assert steps[..k + 1][..k] == steps[..k];
  }

  lemma StepIsLegal(st: State, steps: seq<Step>, k: nat)
    requires LegalRun(st, steps) && k < |steps|
    ensures Legal(Run(st, steps[..k]), steps[k])
  {
  }

  lemma LeasedStart(st: State, steps: seq<Step>, i: nat, job: Id) returns (start: Id)
    requires Leases(st, steps, i, StartCommand, job) && Valid(Run(st, steps[..i + 1]))
    ensures start in Run(st, steps[..i + 1]).commands
    ensures var c := Run(st, steps[..i + 1]).commands[start];
      c.kind == StartCommand && c.jobId == job && c.status == Delivered
  {
    hide Leasable, LeaseBatch, Valid;
    var before := Run(st, steps[..i]);
    assert steps[..i + 1][..i] == steps[..i];
    var c :| c in LeaseBatch(before, steps[i].agentId, steps[i].at, steps[i].limit) && c.kind == StartCommand
      && c.jobId == job;
    LeasedIsLeasable(before, steps[i].agentId, steps[i].at, steps[i].limit, c);
    start :| start in before.commands && before.commands[start] == c;
    LeaseDelivers(before, steps[i], start);
  }

  lemma DeliveredStays(st: State, next: State, start: Id, job: Id)
    requires Progress(st, next)
    requires start in st.commands && st.commands[start].status != Pending
    requires job in st.jobs && st.jobs[job].assignment.Some?
      && st.jobs[job].assignment.value.commandId == start != NO_ID
    ensures job in next.jobs && Launched(next.jobs[job]) && next.jobs[job].assignment.value.commandId == start
    ensures CommandAt(next.commands, start).status != Pending
  {
    assert Advances(st.jobs[job], next.jobs[job]);
    assert CommandEvolves(st.commands[start], next.commands[start]);
  }

  // ---------------------------------------------------------------- A restart quarantines every host

  /** The step is a complete inventory of the host that the repository accepts. */
  ghost predicate FullInventory(st: State, step: Step, s: Id) {
    step.InventoryStep? && step.agentId == s && Complete(step.report) && Outcome(st, step).Ok?
  }

  lemma QuarantineStays(st: State, step: Step, s: Id)
    requires Valid(st) && Legal(st, step) && s in st.servers && st.servers[s].inventoryReceived == ZERO_TIME
    requires !FullInventory(st, step, s)
    ensures s in Apply(st, step).servers && Apply(st, step).servers[s].inventoryReceived == ZERO_TIME
  {
    hide Valid, NormalizeGPUs, Reconcile, ForeignGPU, SoundReport;
    if step.UpsertStep? {
      UpsertKeepsQuarantine(st, step, s);
    } else if !(step.InventoryStep? && step.agentId == s) {
      StepIsHostStep(st, step, s);
    }
  }

  lemma UpsertKeepsQuarantine(st: State, step: Step, s: Id)
    requires Valid(st) && Legal(st, step) && step.UpsertStep? && s in st.servers
      && st.servers[s].inventoryReceived == ZERO_TIME
    ensures s in Apply(st, step).servers && Apply(st, step).servers[s].inventoryReceived == ZERO_TIME
  {
    hide JobsOk, GPUsUnshared, CommandsOk, Tenants, Exclusive, HeldIsNotFree, CalendarExclusive, ServerOk;
  }

  lemma {:induction false} QuarantineLasts(st: State, steps: seq<Step>, s: Id)
    requires Valid(st) && LegalRun(st, steps) && s in st.servers && st.servers[s].inventoryReceived == ZERO_TIME
    requires forall i :: 0 <= i < |steps| ==> !FullInventory(Run(st, steps[..i]), steps[i], s)
    ensures s in Run(st, steps).servers && Run(st, steps).servers[s].inventoryReceived == ZERO_TIME
  {
    hide Valid, Legal, Apply, FullInventory;
    if steps != [] {
      var front := steps[..|steps| - 1];
      PrefixIsLegal(st, steps, |front|);
      assert forall i :: 0 <= i < |front| ==> front[..i] == steps[..i];
      RunKeepsValid(st, front);
      QuarantineLasts(st, front, s);
      QuarantineStays(Run(st, front), steps[|front|], s);
    }
  }

  lemma QuarantinedHostGetsNothing(st: State, s: Id, at: Time)
    requires s in st.servers && st.servers[s].inventoryReceived == ZERO_TIME
    ensures forall c: Command :: c.kind == StartCommand ==> !Leasable(st, s, c, at)
    ensures forall job, placement: Placement, command, t :: placement.serverId == s ==>
      CommitAssignment(st, job, placement, command, t).Err?
  {
    hide PlacementMatches, Dispatchable, CommittedJob;
  }

  lemma RestartKeepsValid(st: State)
    requires Valid(st)
    ensures Valid(Restart(st))
  {
    hide Valid;
    StepKeepsValid(st, RestartStep);
  }

  /** After a restart at any point of a run, a host can neither be handed a START nor take a new one until it has
      sent a new complete inventory; jobs and commands are exactly the committed ones. */
  lemma RestartQuarantines(st: State, steps: seq<Step>, s: Id, at: Time)
    requires Valid(st) && LegalRun(Restart(st), steps) && s in st.servers
    requires forall i :: 0 <= i < |steps| ==> !FullInventory(Run(Restart(st), steps[..i]), steps[i], s)
    ensures Restart(st).jobs == st.jobs && Restart(st).commands == st.commands && Valid(Restart(st))
    ensures var later := Run(Restart(st), steps);
      && (forall c :: c in later.commands && later.commands[c].kind == StartCommand ==>
              !Leasable(later, s, later.commands[c], at))
      && (forall job, placement: Placement, command, t :: placement.serverId == s ==>
              CommitAssignment(later, job, placement, command, t).Err?)
  {
    hide Valid, FullInventory, Leasable, CommitAssignment, Run, LegalRun;
    RestartKeepsValid(st);
    QuarantineLasts(Restart(st), steps, s);
    QuarantinedHostGetsNothing(Run(Restart(st), steps), s, at);
  }
}
