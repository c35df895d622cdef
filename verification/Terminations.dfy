/** Why a job ended: in every reachable state the recorded reason agrees with the status and with the log. */
module Terminations {
  import opened Domain
  import opened Accounting
  import opened Calendar
  import opened StoreSpec
  import opened StoreSteps
  import opened StoreInvariant
  import opened ReplanInvariant
  import opened StoreRuns
  import opened StepEffects
  import PlannerIdempotence

  /** A stop was requested, before or after the end of the requested window. */
  predicate StoppedAt(job: Job, late: bool) {
    exists e :: e in job.events && (e.status == Stopping || e.status == Cancelled)
                && late == (job.RequestedWindow().Valid() && e.at >= job.RequestedWindow().end)
  }

  predicate Explained(job: Job) {
    && (job.status in {Queued, Assigned, Starting} ==> job.termination == NoTermination)
    && (job.status == RunningJob ==> job.termination in {NoTermination, TimeLimit, UserCancelled})
    && (job.status in {Stopping, Stopped, Cancelled} ==> job.termination in {TimeLimit, UserCancelled})
    && (job.status == Succeeded ==> job.termination == Completed)
    && (job.status == Failed ==> job.termination != NoTermination && job.termination != Completed)
    && (job.termination == TimeLimit ==> StoppedAt(job, true))
    && (job.termination == UserCancelled ==> StoppedAt(job, false))
  }

  lemma StopsRemain(j: Job, k: Job, late: bool)
    requires StoppedAt(j, late) && j.events <= k.events && SameRequest(j, k)
    ensures StoppedAt(k, late)
  {
    assert j.RequestedWindow() == k.RequestedWindow();
    var e :| e in j.events && (e.status == Stopping || e.status == Cancelled)
      && late == (j.RequestedWindow().Valid() && e.at >= j.RequestedWindow().end);
    assert e in k.events;
  }

  /** A job that only moves on, with a reason its new status allows, stays explained. */
  lemma MovesOn(j: Job, k: Job)
    requires Explained(j) && j.events <= k.events && SameRequest(j, k)
    requires k.termination == j.termination || (k.termination != TimeLimit && k.termination != UserCancelled)
    requires (k.status in {Queued, Assigned, Starting} ==> k.termination == NoTermination)
      && (k.status == RunningJob ==> k.termination in {NoTermination, TimeLimit, UserCancelled})
      && (k.status in {Stopping, Stopped, Cancelled} ==> k.termination in {TimeLimit, UserCancelled})
      && (k.status == Succeeded ==> k.termination == Completed)
      && (k.status == Failed ==> k.termination != NoTermination && k.termination != Completed)
    ensures Explained(k)
  {
    hide StoppedAt;
    if k.termination == TimeLimit { StopsRemain(j, k, true); }
    if k.termination == UserCancelled { StopsRemain(j, k, false); }
  }

  // ---------------------------------------------------------------- The functions that change a job

  lemma ReleasedIsExplained(job: Job, at: Time)
    ensures Explained(Released(job, at)) == Explained(job)
  {
    assert StoppedAt(Released(job, at), true) == StoppedAt(job, true);
    assert StoppedAt(Released(job, at), false) == StoppedAt(job, false);
  }

  /** A requested stop, whichever of its two outcomes. */
  lemma StopIsExplained(job: Job, status: JobStatus, reason: Reason, at: Time)
    requires Explained(job) && !job.status.Terminal() && job.status != Stopping
      && (status == Stopping || status == Cancelled)
    ensures var next := Transition(job.(termination := StopTermination(job, at)), status, reason, at);
      Explained(next) && Explained(Released(next, at)) && next.id == job.id
  {
    hide Explained, StoppedAt;
    var noted := job.(termination := StopTermination(job, at));
    var next := Transition(noted, status, reason, at);
    var e := Event(job.id, status, reason, at);
    assert next.events == job.events + [e] && next.status == status && next.termination == StopTermination(job, at);
    StopExplains(job, next, e);
    ReleasedIsExplained(next, at);
  }

  lemma StopExplains(job: Job, next: Job, e: Event)
    requires Explained(job) && !job.status.Terminal() && SameRequest(job, next)
    requires next.events == job.events + [e] && (e.status == Stopping || e.status == Cancelled)
      && next.status == e.status
    requires next.termination == StopTermination(job, e.at)
    ensures Explained(next)
  {
    hide StoppedAt;
    if job.termination == NoTermination {
      LastStop(next, e, next.RequestedWindow().Valid() && e.at >= next.RequestedWindow().end);
    } else {
      if job.termination == TimeLimit { StopsRemain(job, next, true); }
      if job.termination == UserCancelled { StopsRemain(job, next, false); }
    }
  }

  lemma LastStop(job: Job, e: Event, late: bool)
    requires e in job.events && (e.status == Stopping || e.status == Cancelled)
    requires late == (job.RequestedWindow().Valid() && e.at >= job.RequestedWindow().end)
    ensures StoppedAt(job, late)
  {
  }

  /** Any other transition, with or without a reason noted just before. */
  lemma TransitionIsExplained(job: Job, noted: Job, status: JobStatus, reason: Reason, at: Time)
    requires Explained(job) && !job.status.Terminal() && SameRequest(job, noted) && noted.events == job.events
      && noted.status == job.status
    requires noted.termination == job.termination || (noted.termination == ExecutionError && status == Failed)
    requires match status
      case Queued => job.termination == NoTermination
      case Assigned => job.termination == NoTermination
      case Starting => job.termination == NoTermination
      case RunningJob => true
      case Stopped => job.status == Stopping || job.termination == TimeLimit
      case Succeeded => true
      case Failed => true
      case _ => false
    ensures var next := Transition(noted, status, reason, at);
      Explained(next) && Explained(Released(next, at)) && next.id == noted.id
  {
    hide StoppedAt;
    var next := Transition(noted, status, reason, at);
    MovesOn(job, next);
    ReleasedIsExplained(next, at);
  }

  lemma ReconciledIsExplained(job: Job, serverId: Id, report: Report, commands: map<Id, Command>)
    requires Explained(job)
    ensures Explained(ReconcileJob(job, serverId, report, commands))
  {
    hide Explained, Transition, Released, Observed, Absent, ExitReason, StoppedAt;
    if job.assignment.Some? && !job.status.Terminal() {
      var at := report.receivedAt;
      if Observed(report.containers, job.id).Some? {
        var c := Observed(report.containers, job.id).value;
        var seen := job.(containerId := c.id, lastObserved := Some(report.observedAt));
        SeenIsExplained(job, seen);
        SeenIsExplained(job, seen.(assignment := Some(seen.assignment.value.(state := AllocatedState))));
        TransitionIsExplained(job, seen.(assignment := Some(seen.assignment.value.(state := AllocatedState))),
                              RunningJob, ObservedActive, at);
        TransitionIsExplained(job, if ExitStatus(seen, c) == Failed then seen.(termination := ExecutionError) else seen,
                              ExitStatus(seen, c), ExitReason(seen, c), at);
      } else {
        if job.status == Stopping { TransitionIsExplained(job, job, Stopped, AbsentAfterStop, at); }
        TransitionIsExplained(job, job, Failed, MissingFromInventory, at);
      }
    }
  }

  lemma SeenIsExplained(job: Job, seen: Job)
    requires Explained(job)
    requires seen == job.(containerId := seen.containerId, lastObserved := seen.lastObserved,
                          assignment := seen.assignment)
    ensures Explained(seen)
  {
    hide StoppedAt;
    MovesOn(job, seen);
  }

  lemma PlacedIsExplained(job: Job, entry: PlanEntry, at: Time)
    requires Explained(job) && job.Replannable(at)
    ensures Explained(PlacedJob(job, entry, at))
  {
    hide StoppedAt;
    MovesOn(job, PlacedJob(job, entry, at));
  }

  lemma CommittedIsExplained(job: Job, p: Placement, command: Command, at: Time)
    requires Explained(job) && Dispatchable(job, p, command, at)
    ensures Explained(CommittedJob(job, p, command, at))
  {
    hide StoppedAt;
    MovesOn(job, CommittedJob(job, p, command, at));
  }

  lemma AckedIsExplained(job: Job, command: Command, ack: Ack, at: Time)
    requires Explained(job) && !job.status.Terminal()
    ensures var (next, ends) := AckJob(job, command, ack, at);
      next.id == job.id && Explained(next) && Explained(Released(next, at))
  {
    hide Explained, Transition, Released, StoppedAt;
    NotYetEnded(job);
    var started := job.(containerId := ack.containerId);
    SeenIsExplained(job, started);
    ReleasedIsExplained(job, at);
    ReleasedIsExplained(started, at);
    if job.status == Assigned { TransitionIsExplained(job, started, Starting, StartAcknowledged, at); }
    TransitionIsExplained(job, job.(termination := ExecutionError), Failed, LaunchFailed, at);
    TransitionIsExplained(job, job, RunningJob, StopFailed, at);
  }

  lemma NotYetEnded(job: Job)
    requires Explained(job)
    ensures job.status in {Queued, Assigned, Starting} ==> job.termination == NoTermination
  {
  }

  // ---------------------------------------------------------------- Every step

  ghost predicate AllExplained(jobs: map<Id, Job>) {
    forall k :: k in jobs ==> Explained(jobs[k])
  }

  lemma StopVersionIsExplained(commands: map<Id, Command>, job: Job, order: Command, at: Time)
    requires Explained(job)
    ensures Explained(StopVersion(commands, job, order, at))
  {
    hide Explained, Transition, Released, StopTermination;
    if !job.status.Terminal() && job.status != Stopping {
      StopIsExplained(job, Cancelled, CancelledBeforePlacement, at);
      StopIsExplained(job, Cancelled, CancelledBeforeExecution, at);
      StopIsExplained(job, Cancelled, CancelledBeforeDelivery, at);
      StopIsExplained(job, Stopping, StopRequested, at);
    }
  }

  lemma StatusVersionIsExplained(job: Job, status: JobStatus, reason: Reason, at: Time)
    requires Explained(job) && (status == Failed || status == Assigned)
    ensures Explained(StatusVersion(job, status, reason, at))
  {
    hide Explained, Transition, Released;
    if !StatusIgnored(job, status) {
      NotYetEnded(job);
      TransitionIsExplained(job, job, status, reason, at);
    }
  }

  lemma EndingExplains(st: State, step: Step)
    requires Valid(st) && AllExplained(st.jobs) && Legal(st, step)
      && (step.StopStep? || step.StatusStep? || step.AckStep?)
    ensures AllExplained(Apply(st, step).jobs)
  {
    hide GPUsUnshared, Tenants, Exclusive, HeldIsNotFree, CalendarExclusive, ServersOk, JobOk, CommandOk, LaunchOk,
         Reaccounts, KeepsCommands, Apply, StopVersion, StatusVersion, Explained, AckJob, Released;
    if step.StopStep? {
      StopEffect(st, step);
      if step.jobId in st.jobs { StopVersionIsExplained(st.commands, st.jobs[step.jobId], step.command, step.at); }
    } else if step.StatusStep? {
      StatusEffect(st, step);
      if step.jobId in st.jobs { StatusVersionIsExplained(st.jobs[step.jobId], step.status, step.reason, step.at); }
    } else {
      AckEffect(st, step);
      if AckCounts(st, step) {
        var command := st.commands[step.commandId];
        AckedIsExplained(st.jobs[command.jobId], command, step.ack, step.at);
      }
    }
  }

  lemma ReplanStepExplains(st: State, step: Step)
    requires Valid(st) && AllExplained(st.jobs) && step.ReplanStep?
    ensures AllExplained(Apply(st, step).jobs)
  {
    hide Valid, Replan, PlacedJob, Ids, Explained, Job.Replannable;
    if step.answer.Ok? && Replan(st, step.at, step.answer.value).Ok? {
      var plans := step.answer.value;
      PlannerIdempotence.ReplanWrites(st, step.at, plans);
      ReplanMatches(plans);
      forall e | e in plans ensures e.jobId in st.jobs && Explained(PlacedJob(st.jobs[e.jobId], e, step.at)) {
        PlacedIsExplained(st.jobs[e.jobId], e, step.at);
      }
    }
  }

  lemma ReplanMatches(plans: seq<PlanEntry>)
    ensures forall id :: id in Ids(plans) ==> exists e :: e in plans && e.jobId == id
  {
  }

  lemma CommitStepExplains(st: State, step: Step)
    requires JobsOk(st.jobs) && AllExplained(st.jobs) && step.CommitStep?
    ensures AllExplained(Apply(st, step).jobs)
  {
    hide JobOk, CommittedJob, PlacementMatches, Dispatchable, ReserveGPUs, Explained;
    if step.jobId in st.jobs && Dispatchable(st.jobs[step.jobId], step.placement, step.command, step.at) {
      CommittedIsExplained(st.jobs[step.jobId], step.placement, step.command, step.at);
    }
  }

  lemma InventoryStepExplains(st: State, step: Step)
    requires AllExplained(st.jobs) && step.InventoryStep?
    ensures AllExplained(Apply(st, step).jobs)
  {
    hide ReconcileJob, NormalizeGPUs, ForeignGPU, Explained;
    forall k | k in st.jobs ensures Explained(ReconcileJob(st.jobs[k], step.agentId, Stamped(step.report),
                                                           st.commands)) {
      ReconciledIsExplained(st.jobs[k], step.agentId, Stamped(step.report), st.commands);
    }
  }

  lemma OtherStepExplains(st: State, step: Step)
    requires AllExplained(st.jobs) && (step.CreateStep? ==> Legal(st, step)) && (step.CreateStep? || step.TrainingStep?)
    ensures AllExplained(Apply(st, step).jobs)
  {
    hide StoppedAt;
    if step.TrainingStep? && step.jobId in st.jobs {
      MovesOn(st.jobs[step.jobId], st.jobs[step.jobId].(
        training := NextTraining(st.jobs[step.jobId].training, step.expected, step.next), updatedAt := step.at));
    }
  }

  lemma StepExplains(st: State, step: Step)
    requires Valid(st) && Legal(st, step) && AllExplained(st.jobs)
    ensures AllExplained(Apply(st, step).jobs)
  {
    hide ServersOk, GPUsUnshared, CommandsOk, Tenants, Exclusive, HeldIsNotFree, CalendarExclusive, JobsOk,
         SetJobStatus, RequestStop, AckCommand, ReplanReservations, CommitAssignment, ReplaceInventory, LeaseBatch,
         AllExplained, CreateJob, UpdateTraining, Admitted, SoundReport, SoundRegistration, NewCommand;
    match step
    case StatusStep(_, _, _, _) => EndingExplains(st, step);
    case StopStep(_, _, _) => EndingExplains(st, step);
    case AckStep(_, _, _, _) => EndingExplains(st, step);
    case ReplanStep(_, _) => ReplanStepExplains(st, step);
    case CommitStep(_, _, _, _) => CommitStepExplains(st, step);
    case InventoryStep(_, _) => InventoryStepExplains(st, step);
    case CreateStep(_) => OtherStepExplains(st, step);
    case TrainingStep(_, _, _, _) => OtherStepExplains(st, step);
    case _ =>
  }

  /** In every reachable state each job's recorded reason is the one its status and its log call for: a live job that
      was never stopped has none, TIME_LIMIT means a stop at or after the end of the window, USER_CANCELLED one that
      was not, and an ended job always has a reason. */
  lemma {:induction false} EndingsAreExplained(offlineAfter: int, steps: seq<Step>)
    requires LegalRun(Initial(offlineAfter), steps)
    ensures forall k :: k in Run(Initial(offlineAfter), steps).jobs ==>
      Explained(Run(Initial(offlineAfter), steps).jobs[k])
  {
    hide Valid, Legal, Apply, Explained;
    if steps != [] {
      var front := steps[..|steps| - 1];
      PrefixIsLegal(Initial(offlineAfter), steps, |front|);
      ReachableIsValid(offlineAfter, front);
      EndingsAreExplained(offlineAfter, front);
      StepExplains(Run(Initial(offlineAfter), front), steps[|front|]);
    }
  }
}
