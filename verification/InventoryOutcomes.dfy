/** What one inventory report does: to its host, to a launched job whose container it shows, and to one whose
  container is missing. */
module InventoryOutcomes {
  import opened Domain
  import opened Accounting
  import opened StoreSpec
  import opened StoreSteps
  import opened StoreInvariant
  import opened StoreRuns
  import opened StepEffects
  import C = CommandProtocol

  /** When the repository got the report. */
  function ReceivedAt(report: Report): Time {
    if report.receivedAt != ZERO_TIME then report.receivedAt else report.observedAt
  }

  /** Both sources of the report could be read. */
  predicate BothSources(report: Report) {
    report.caps.Some? ==> report.caps.value.gpuInventory && report.caps.value.docker
  }

  /** A managed container of the job. */
  predicate Mine(c: Container, id: Id) {
    c.origin == ManagedOrigin && c.jobId == id
  }

  predicate Active(c: Container) {
    c.state in {Running, Paused, Restarting}
  }

  /** The container that counts for the job: the first active one, or the first one when none is active. */
  predicate Counts(cs: seq<Container>, id: Id, i: nat) {
    i < |cs| && Mine(cs[i], id)
    && if Active(cs[i]) then forall k :: 0 <= k < i ==> !(Mine(cs[k], id) && Active(cs[k]))
       else
         (forall k :: 0 <= k < i ==> !Mine(cs[k], id))
         && forall k :: 0 <= k < |cs| ==> !(Mine(cs[k], id) && Active(cs[k]))
  }

  lemma CountsIsObserved(cs: seq<Container>, id: Id, i: nat)
    requires id != NO_ID && Counts(cs, id, i)
    ensures Observed(cs, id) == Some(cs[i])
  {
    C.ObservedMeans(cs, id);
    assert cs[i] in cs;
  }

  lemma NoneIsObserved(cs: seq<Container>, id: Id)
    requires forall c :: c in cs ==> !Mine(c, id)
    ensures Observed(cs, id) == None
  {
    C.ObservedMeans(cs, id);
  }

  // ---------------------------------------------------------------- The host

  /** A report is taken in from a known host when its number is new and none of its GPUs is part of another host; the
      error says which of these fails. */
  lemma ReportAccepted(st: State, agentId: Id, report: Report)
    ensures var shared := exists s, g, k ::
        s in st.servers && s != agentId && g in report.gpus && k in st.servers[s].gpus && g.uuid == k.uuid;
      match ReplaceInventory(st, agentId, report)
      case Ok(_) => agentId in st.servers && report.sequence > st.servers[agentId].version && !shared
      case Err(e) =>
        if agentId !in st.servers then e == NotFound
        else if report.sequence <= st.servers[agentId].version then e == StaleInventory
        else e == Conflict && shared
  {
    hide NormalizeGPUs, Reconcile;
  }

  /** What the host's entry says afterwards: the receipt is recorded only for a complete report, a source that failed
      leaves the containers or the GPUs as they were, and readiness is derived again. */
  lemma HostAfterReport(st: State, step: Step)
    requires step.InventoryStep? && Outcome(st, step).Ok?
    ensures var report, next := step.report, Apply(st, step);
      && step.agentId in st.servers && step.agentId in next.servers
      && (forall s :: s in st.servers && s != step.agentId ==> s in next.servers && next.servers[s] == st.servers[s])
      && next.commands == st.commands && next.machines == st.machines
      && var a, b := st.servers[step.agentId], next.servers[step.agentId];
         && b.version == report.sequence && b.lastHeartbeat == ReceivedAt(report)
         && b.inventoryReceived == (if BothSources(report) then ReceivedAt(report) else ZERO_TIME)
         && b.status == (if a.drained then Draining else Online) && b.drained == a.drained
         && b.id == a.id && b.org == a.org && b.machineId == a.machineId && b.labels == a.labels
         && b.containers == (if report.caps.Some? && !report.caps.value.docker then a.containers else report.containers)
         && (report.caps.Some? && !report.caps.value.gpuInventory ==> b.gpus == a.gpus)
         && (report.caps.None? || report.caps.value.gpuInventory ==>
               |b.gpus| == |report.gpus|
               && forall i :: 0 <= i < |b.gpus| ==>
                    b.gpus[i] == report.gpus[i].(state := b.gpus[i].state, assignedJob := b.gpus[i].assignedJob))
         && (report.caps.None? ==> b.caps == a.caps)
  {
    hide Reconcile, NormalizeGPUs, ForeignGPU;
    var next := Apply(st, step);
    if GPUValid(step.report) {
      NormalizingKeepsHardware(step.agentId, step.report.gpus, next.servers[step.agentId].containers,
                               step.report.processes, next.jobs);
    }
  }

  /** A host is ready to execute only when the report shows every part of it in order. */
  lemma ReadinessAfterReport(st: State, step: Step)
    requires step.InventoryStep? && Outcome(st, step).Ok? && step.report.caps.Some?
    ensures step.agentId in Apply(st, step).servers
    ensures var seen, b := step.report.caps.value, Apply(st, step).servers[step.agentId];
      && b.caps.Some?
      && (b.caps.value.ready <==>
            && seen.operational && seen.platformSupported && seen.docker && seen.nvml && seen.gpuInventory
            && seen.gpuCount != 0 && seen.containerSupport && seen.dockerSupported)
      && b.caps.value == seen.(ready := b.caps.value.ready)
  {
    hide Reconcile, NormalizeGPUs, ForeignGPU;
  }

  // ---------------------------------------------------------------- The jobs

  /** The report is complete, and the job is alive and was launched on its host. */
  ghost predicate Speaks(st: State, step: Step, id: Id) {
    step.InventoryStep? && Outcome(st, step).Ok? && BothSources(step.report) && id in st.jobs
    && var job := st.jobs[id];
       job.status !in {Stopped, Succeeded, Failed, Cancelled} && job.assignment.Some?
       && job.assignment.value.serverId == step.agentId && job.assignment.value.commandId != NO_ID
  }

  lemma JobAfterReport(st: State, step: Step, id: Id)
    requires step.InventoryStep? && Outcome(st, step).Ok? && id in st.jobs
    ensures id in Apply(st, step).jobs
    ensures Apply(st, step).jobs[id] ==
      if BothSources(step.report)
      then ReconcileJob(st.jobs[id], step.agentId, Stamped(step.report), st.commands) else st.jobs[id]
  {
    hide NormalizeGPUs, ForeignGPU, ReconcileJob;
  }

  /** Any other job is left as it is: a partial report, another host, a booking not launched yet, a job that has
      ended. */
  lemma OthersAreLeft(st: State, step: Step, id: Id)
    requires step.InventoryStep? && id in st.jobs && !Speaks(st, step, id)
    ensures id in Apply(st, step).jobs && Apply(st, step).jobs[id] == st.jobs[id]
  {
    hide ReplaceInventory, Observed, Absent, Transition, Released;
    if Outcome(st, step).Ok? { JobAfterReport(st, step, id); }
  }

  /** The job after it was found to have ended. */
  predicate EndedAs(j: Job, k: Job, status: JobStatus, termination: Termination, reason: Reason, at: Time) {
    && k.status == status && k.termination == termination && k.reason == reason && k.updatedAt == at
    && k.events == j.events + [Event(j.id, status, reason, at)]
    && j.assignment.Some? && k.assignment == Some(j.assignment.value.(state := ReleasedState, releasedAt := Some(at)))
  }

  lemma EndingMeans(job: Job, status: JobStatus, reason: Reason, at: Time)
    requires job.assignment.Some? && job.status !in {Stopped, Succeeded, Failed, Cancelled}
    requires status in {Stopped, Succeeded, Failed}
    ensures var next := Released(Transition(job, status, reason, at), at);
      && next.containerId == job.containerId && next.lastObserved == job.lastObserved
      && EndedAs(job, next, status,
                 if status == Succeeded then Completed
                 else if status == Failed && job.termination == NoTermination then SystemError else job.termination,
                 reason, at)
  {
    hide Released, Transition;
    TransitionMeans(job, status, reason, at);
    ReleasedMeans(Transition(job, status, reason, at), at);
  }

  lemma InRange(cs: seq<Container>, id: Id, i: nat)
    requires Counts(cs, id, i)
    ensures i < |cs|
  {
  }

  lemma EndedStatus(j: Job, k: Job, status: JobStatus)
    ensures forall termination, reason, at :: EndedAs(j, k, status, termination, reason, at) ==> k.status == status
  {
  }

  lemma EndedJob(job: Job, serverId: Id, report: Report, commands: map<Id, Command>, c: Container)
    requires job.assignment.Some? && job.status !in {Stopped, Succeeded, Failed, Cancelled}
    requires job.assignment.value.serverId == serverId && job.assignment.value.commandId != NO_ID
    requires Observed(report.containers, job.id) == Some(c) && c.state in {Exited, Dead}
    ensures var stopped := job.status == Stopping || job.termination == TimeLimit;
      var k := ReconcileJob(job, serverId, report, commands);
      && k.containerId == c.id && k.lastObserved == Some(report.observedAt)
      && EndedAs(job, k, if stopped then Stopped else if c.exitCode == Some(0) then Succeeded else Failed,
                 if stopped then job.termination else if c.exitCode == Some(0) then Completed else ExecutionError,
                 if stopped then ObservedStopped
                 else match c.exitCode
                   case None => ExitedUnknown
                   case Some(n) => if n == 0 then ExitedOk else ExitedWith(n),
                 report.receivedAt)
  {
    hide Observed, Absent, Transition, Released;
    var seen := job.(containerId := c.id, lastObserved := Some(report.observedAt));
    var failed := if ExitStatus(seen, c) == Failed then seen.(termination := ExecutionError) else seen;
    EndingMeans(failed, ExitStatus(seen, c), ExitReason(seen, c), report.receivedAt);
  }

  /** The container that counts has ended: STOPPED when a stop was asked for or the time was up, otherwise SUCCEEDED
      exactly for exit code 0, and FAILED with an execution error for any other exit or an unknown one. */
  lemma EndedContainer(st: State, step: Step, id: Id, i: nat)
    requires Valid(st) && Speaks(st, step, id)
    requires Counts(step.report.containers, id, i) && step.report.containers[i].state in {Exited, Dead}
    ensures id in Apply(st, step).jobs
    ensures var c, at := step.report.containers[i], ReceivedAt(step.report);
      var j, k := st.jobs[id], Apply(st, step).jobs[id];
      var stopped := j.status == Stopping || j.termination == TimeLimit;
      && (k.status == Stopped <==> stopped)
      && (k.status == Succeeded <==> !stopped && c.exitCode == Some(0))
      && (k.status == Failed <==> !stopped && c.exitCode != Some(0))
      && EndedAs(j, k, k.status,
                 if stopped then j.termination else if c.exitCode == Some(0) then Completed else ExecutionError,
                 if stopped then ObservedStopped
                 else match c.exitCode
                   case None => ExitedUnknown
                   case Some(n) => if n == 0 then ExitedOk else ExitedWith(n),
                 at)
      && k.containerId == c.id && k.lastObserved == Some(step.report.observedAt)
  {
    hide Valid, ReplaceInventory, Observed, Counts, ReconcileJob, EndedAs, Apply, Outcome;
    JobsAreOk(st, id);
    JobAfterReport(st, step, id);
    CountsIsObserved(step.report.containers, id, i);
    InRange(step.report.containers, id, i);
    var c := step.report.containers[i];
    EndedJob(st.jobs[id], step.agentId, Stamped(step.report), st.commands, c);
    EndedStatus(st.jobs[id], Apply(st, step).jobs[id],
                if st.jobs[id].status == Stopping || st.jobs[id].termination == TimeLimit then Stopped
                else if c.exitCode == Some(0) then Succeeded else Failed);
  }

  /** The container that counts is active: an assigned or starting job runs, any other keeps its status, and the
      reservation is allocated. */
  lemma ActiveContainer(st: State, step: Step, id: Id, i: nat)
    requires Valid(st) && Speaks(st, step, id)
    requires Counts(step.report.containers, id, i) && Active(step.report.containers[i])
    ensures id in Apply(st, step).jobs
    ensures var c, at := step.report.containers[i], ReceivedAt(step.report);
      var j, k := st.jobs[id], Apply(st, step).jobs[id];
      && k.containerId == c.id && k.lastObserved == Some(step.report.observedAt) && k.termination == j.termination
      && k.assignment == Some(j.assignment.value.(state := AllocatedState))
      && (if j.status in {Assigned, Starting}
          then k.status == RunningJob && k.reason == ObservedActive && k.updatedAt == at
               && k.events == j.events + [Event(id, RunningJob, ObservedActive, at)]
          else k.status == j.status && k.reason == j.reason && k.updatedAt == j.updatedAt && k.events == j.events)
  {
    hide Valid, ReplaceInventory, Observed, Absent, Counts, Transition, Apply, Outcome, ExitStatus, ExitReason;
    JobsAreOk(st, id);
    JobAfterReport(st, step, id);
    CountsIsObserved(step.report.containers, id, i);
    InRange(step.report.containers, id, i);
    var c, j := step.report.containers[i], st.jobs[id];
    var active := j.(containerId := c.id, lastObserved := Some(step.report.observedAt),
                     assignment := Some(j.assignment.value.(state := AllocatedState)));
    if j.status in {Assigned, Starting} {
      TransitionMeans(active, RunningJob, ObservedActive, Stamped(step.report).receivedAt);
    }
  }

  /** Neither active nor ended: the container is noted and nothing else happens. */
  lemma OtherContainer(st: State, step: Step, id: Id, i: nat)
    requires Valid(st) && Speaks(st, step, id)
    requires Counts(step.report.containers, id, i) && step.report.containers[i].state == OtherState
    ensures id in Apply(st, step).jobs
    ensures Apply(st, step).jobs[id]
         == st.jobs[id].(containerId := step.report.containers[i].id, lastObserved := Some(step.report.observedAt))
  {
    hide Valid, ReplaceInventory, Observed, Absent, Counts;
    JobsAreOk(st, id);
    JobAfterReport(st, step, id);
    CountsIsObserved(step.report.containers, id, i);
  }

  /** The launch of the job was acknowledged no later than the observation, or it is stopping and a stop of it was. */
  ghost predicate Settled(st: State, job: Job, observedAt: Time) {
    job.assignment.Some?
    && var a := job.assignment.value;
       || (a.commandId in st.commands && st.commands[a.commandId].status == SucceededCommand
           && st.commands[a.commandId].completedAt.Some? && st.commands[a.commandId].completedAt.value <= observedAt)
       || (job.status == Stopping
           && exists c :: c in st.commands && st.commands[c].kind == StopCommand && st.commands[c].jobId == job.id
                && st.commands[c].agentId == a.serverId && st.commands[c].status == SucceededCommand
                && st.commands[c].completedAt.Some? && st.commands[c].completedAt.value <= observedAt)
  }

  lemma SettledMeans(st: State, job: Job, observedAt: Time)
    ensures Absent(st.commands, job, observedAt)
       <==> job.status in {RunningJob, Stopping, Starting} && Settled(st, job, observedAt)
  {
    if job.assignment.Some? && job.status == Stopping {
      forall c | c in st.commands && StopConfirms(st.commands[c], job, observedAt)
        ensures st.commands[c].kind == StopCommand && st.commands[c].jobId == job.id
      {
      }
    }
  }

  /** No container of the job is left: it has ended when it was on its way and the launch or a stop is settled,
      STOPPED when a stop was asked for and FAILED otherwise; before that its absence means nothing. */
  lemma MissingContainer(st: State, step: Step, id: Id)
    requires Valid(st) && Speaks(st, step, id)
    requires forall c :: c in step.report.containers ==> !Mine(c, id)
    ensures id in Apply(st, step).jobs
    ensures var j, k, at := st.jobs[id], Apply(st, step).jobs[id], ReceivedAt(step.report);
      if j.status in {RunningJob, Stopping, Starting} && Settled(st, j, step.report.observedAt)
      then
        if j.status == Stopping then EndedAs(j, k, Stopped, j.termination, AbsentAfterStop, at)
        else EndedAs(j, k, Failed, if j.termination == NoTermination then SystemError else j.termination,
                     MissingFromInventory, at)
      else k == j
  {
    hide Valid, ReplaceInventory, Observed, Absent, Settled;
    JobsAreOk(st, id);
    JobAfterReport(st, step, id);
    NoneIsObserved(step.report.containers, id);
    SettledMeans(st, st.jobs[id], step.report.observedAt);
  }
}
