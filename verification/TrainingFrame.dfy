/** The publication protocol inside the repository: only a training update touches training metadata. */
module TrainingFrame {
  import opened Domain
  import opened Accounting
  import opened Calendar
  import opened StoreSpec
  import opened StoreSteps
  import opened StoreInvariant
  import opened ReplanInvariant
  import opened StoreRuns
  import opened Occupancy
  import opened StepEffects
  import P = Publication
  import PlannerIdempotence

  /** Training metadata stays, and the log grows by at most one event, stamped `at`. */
  predicate SameOutputs(j: Job, k: Job, at: Time) {
    && k.training == j.training && k.workload == j.workload
    && (k.events == j.events
        || (|k.events| == |j.events| + 1 && k.events[..|j.events|] == j.events && k.events[|j.events|].at == at))
  }

  /** The time with which a step stamps the events it adds. */
  function StampOf(step: Step): Time {
    match step
    case InventoryStep(_, report) => Stamped(report).receivedAt
    case StatusStep(_, _, _, at) => at
    case ReplanStep(at, _) => at
    case CommitStep(_, _, _, at) => at
    case StopStep(_, _, at) => at
    case AckStep(_, _, _, at) => at
    case _ => ZERO_TIME
  }

  lemma TransitionKeepsOutputs(job: Job, status: JobStatus, reason: Reason, at: Time)
    ensures SameOutputs(job, Transition(job, status, reason, at), at)
    ensures SameOutputs(job, Released(Transition(job, status, reason, at), at), at)
  {
    var next := Transition(job, status, reason, at);
    assert next.events == job.events || next.events == job.events + [Event(job.id, status, reason, at)];
    hide Transition;
    ReleasedKeepsOutputs(next, at);
  }

  lemma ReleasedKeepsOutputs(job: Job, at: Time)
    ensures var next := Released(job, at);
      next.events == job.events && next.training == job.training && next.workload == job.workload
  {
  }

  lemma StopKeepsOutputs(commands: map<Id, Command>, job: Job, order: Command, at: Time)
    ensures SameOutputs(job, StopVersion(commands, job, order, at), at)
  {
    hide StopTermination, Transition, Released;
    var noted := job.(termination := StopTermination(job, at));
    TransitionKeepsOutputs(noted, Cancelled, CancelledBeforePlacement, at);
    TransitionKeepsOutputs(noted, Cancelled, CancelledBeforeExecution, at);
    TransitionKeepsOutputs(noted, Cancelled, CancelledBeforeDelivery, at);
    TransitionKeepsOutputs(noted, Stopping, StopRequested, at);
  }

  lemma StatusKeepsOutputs(job: Job, status: JobStatus, reason: Reason, at: Time)
    ensures SameOutputs(job, StatusVersion(job, status, reason, at), at)
  {
    hide StatusIgnored, Transition, Released;
    TransitionKeepsOutputs(job, status, reason, at);
  }

  lemma ReconcileKeepsOutputs(job: Job, serverId: Id, report: Report, commands: map<Id, Command>)
    ensures SameOutputs(job, ReconcileJob(job, serverId, report, commands), report.receivedAt)
  {
    hide Observed, Absent;
  }

  lemma PlacingKeepsOutputs(job: Job, entry: PlanEntry, at: Time)
    ensures SameOutputs(job, PlacedJob(job, entry, at), at)
  {
  }

  lemma CommittingKeepsOutputs(job: Job, p: Placement, command: Command, at: Time)
    ensures SameOutputs(job, CommittedJob(job, p, command, at), at)
  {
  }

  lemma AckKeepsOutputs(job: Job, command: Command, ack: Ack, at: Time)
    ensures SameOutputs(job, AckVersion(job, command, ack, at), at)
  {
  }

  lemma EndingLeavesOutputs(st: State, step: Step, id: Id)
    requires Valid(st) && (step.StopStep? || step.StatusStep? || step.AckStep?) && id in st.jobs
    ensures id in Apply(st, step).jobs && SameOutputs(st.jobs[id], Apply(st, step).jobs[id], StampOf(step))
  {
    hide GPUsUnshared, Tenants, Exclusive, HeldIsNotFree, CalendarExclusive, ServersOk, JobOk, CommandOk, LaunchOk,
         Reaccounts, KeepsCommands, Apply, StopVersion, StatusVersion, AckVersion;
    if step.StopStep? {
      StopEffect(st, step);
      StopKeepsOutputs(st.commands, st.jobs[id], step.command, step.at);
    } else if step.StatusStep? {
      StatusEffect(st, step);
      StatusKeepsOutputs(st.jobs[id], step.status, step.reason, step.at);
    } else {
      AckEffect(st, step);
      if AckCounts(st, step) { AckKeepsOutputs(st.jobs[id], st.commands[step.commandId], step.ack, step.at); }
    }
  }

  lemma ReplanLeavesOutputs(st: State, step: Step, id: Id)
    requires Valid(st) && step.ReplanStep? && id in st.jobs
    ensures id in Apply(st, step).jobs && SameOutputs(st.jobs[id], Apply(st, step).jobs[id], StampOf(step))
  {
    hide Valid, Replan, PlacedJob, Replaced, Ids;
    if step.answer.Ok? && Replan(st, step.at, step.answer.value).Ok? {
      var plans := step.answer.value;
      PlannerIdempotence.ReplanWrites(st, step.at, plans);
      NamedByEntry(plans, id);
      forall e | e in plans ensures e.jobId in st.jobs
        && SameOutputs(st.jobs[e.jobId], PlacedJob(st.jobs[e.jobId], e, step.at), step.at) {
        PlacingKeepsOutputs(st.jobs[e.jobId], e, step.at);
      }
    }
  }

  lemma NamedByEntry(plans: seq<PlanEntry>, id: Id)
    ensures id in Ids(plans) ==> exists e :: e in plans && e.jobId == id
  {
  }

  lemma CommitLeavesOutputs(st: State, step: Step, id: Id)
    requires JobsOk(st.jobs) && step.CommitStep? && id in st.jobs
    ensures id in Apply(st, step).jobs && SameOutputs(st.jobs[id], Apply(st, step).jobs[id], StampOf(step))
  {
    hide JobOk, CommittedJob, PlacementMatches, Dispatchable, ReserveGPUs;
    if step.jobId in st.jobs {
      CommittingKeepsOutputs(st.jobs[step.jobId], step.placement, step.command, step.at);
    }
  }

  lemma InventoryLeavesOutputs(st: State, step: Step, id: Id)
    requires step.InventoryStep? && id in st.jobs
    ensures id in Apply(st, step).jobs && SameOutputs(st.jobs[id], Apply(st, step).jobs[id], StampOf(step))
  {
    hide ReconcileJob, NormalizeGPUs, ForeignGPU;
    ReconcileKeepsOutputs(st.jobs[id], step.agentId, Stamped(step.report), st.commands);
  }

  lemma StepLeavesOutputs(st: State, step: Step, id: Id)
    requires Valid(st) && id in st.jobs && !step.TrainingStep?
    ensures id in Apply(st, step).jobs && SameOutputs(st.jobs[id], Apply(st, step).jobs[id], StampOf(step))
  {
    hide ServersOk, GPUsUnshared, CommandsOk, Tenants, Exclusive, HeldIsNotFree, CalendarExclusive, JobsOk,
         SetJobStatus, RequestStop,
         AckCommand, ReplanReservations, CommitAssignment, ReplaceInventory, LeaseBatch;
    match step
    case StatusStep(_, _, _, _) => EndingLeavesOutputs(st, step, id);
    case StopStep(_, _, _) => EndingLeavesOutputs(st, step, id);
    case AckStep(_, _, _, _) => EndingLeavesOutputs(st, step, id);
    case ReplanStep(_, _) => ReplanLeavesOutputs(st, step, id);
    case CommitStep(_, _, _, _) => CommitLeavesOutputs(st, step, id);
    case InventoryStep(_, _) => InventoryLeavesOutputs(st, step, id);
    case _ =>
  }

  /** Seen from one job, a repository step is either one swap of the publication protocol or happens elsewhere. */
  lemma StepIsSwapOrElsewhere(st: State, step: Step, id: Id)
    requires Valid(st) && Legal(st, step) && id in st.jobs
    ensures id in Apply(st, step).jobs
    ensures var before, after := st.jobs[id], Apply(st, step).jobs[id];
      if step.TrainingStep? && step.jobId == id then
        after == if TrainingConflict(before, step.expected, step.next) then before
                 else P.Swapped(before, step.expected, step.next, step.at)
      else P.Untouched(before, after) && SameOutputs(before, after, StampOf(step))
  {
    hide Valid, Legal, Outcome, Progress;
    StepKeepsValid(st, step);
    if step.TrainingStep? {
      SwapStep(st, step, id);
    } else {
      StepLeavesOutputs(st, step, id);
      StepAdvances(st, Apply(st, step), id);
    }
  }

  lemma SwapStep(st: State, step: Step, id: Id)
    requires step.TrainingStep? && id in st.jobs
    ensures id in Apply(st, step).jobs
    ensures var before, after := st.jobs[id], Apply(st, step).jobs[id];
      after == if step.jobId != id || TrainingConflict(before, step.expected, step.next) then before
               else P.Swapped(before, step.expected, step.next, step.at)
  {
  }

  lemma StepAdvances(st: State, next: State, id: Id)
    requires Progress(st, next) && id in st.jobs
    ensures id in next.jobs && SameRequest(st.jobs[id], next.jobs[id]) && st.jobs[id].events <= next.jobs[id].events
  {
    assert Advances(st.jobs[id], next.jobs[id]);
  }

  /** No step asks a job that is not running for a checkpoint. */
  lemma CheckpointRequestedWhileRunning(st: State, step: Step, id: Id)
    requires Valid(st) && Legal(st, step) && id in st.jobs
    ensures id in Apply(st, step).jobs
    ensures var before, after := st.jobs[id], Apply(st, step).jobs[id];
      after.training.checkpoint == CheckpointRequested && before.training.checkpoint != CheckpointRequested ==>
        before.status == RunningJob && after.status == RunningJob
  {
    hide Valid, Legal, Apply;
    StepIsSwapOrElsewhere(st, step, id);
  }
}
