/** The GPUs of a host after a report, and after a job on it ended. */
module ReleaseOutcomes {
  import opened Domain
  import opened Accounting
  import opened AccountingOutcomes
  import opened StoreSpec
  import opened StoreSteps
  import opened StoreInvariant
  import opened StoreRuns
  import opened StepEffects
  import I = InventoryOutcomes
  import O = StepOutcomes

  predicate Over(j: Job) {
    j.status in {Stopped, Succeeded, Failed, Cancelled}
  }

  // ---------------------------------------------------------------- After a report

  /** The GPUs of a report are accounted with its processes, the containers now known and the jobs as they now stand. */
  lemma GPUsAfterReport(st: State, step: Step)
    requires step.InventoryStep? && Outcome(st, step).Ok?
    requires step.report.caps.Some? ==> step.report.caps.value.gpuInventory
    ensures var next := Apply(st, step);
      && step.agentId in next.servers
      && var host := next.servers[step.agentId];
         && |host.gpus| == |step.report.gpus|
         && forall i :: 0 <= i < |host.gpus| ==>
              AccountedAs(step.agentId, step.report.gpus[i], host.containers, step.report.processes, next.jobs,
                          host.gpus[i])
  {
    hide Reconcile, NormalizeGPU, ForeignGPU, AccountedAs;
    var next := Apply(st, step);
    var host := next.servers[step.agentId];
    forall i | 0 <= i < |host.gpus|
      ensures AccountedAs(step.agentId, step.report.gpus[i], host.containers, step.report.processes, next.jobs,
                          host.gpus[i])
    {
      StateExactly(step.agentId, step.report.gpus[i], host.containers, step.report.processes, next.jobs);
    }
  }

  // ---------------------------------------------------------------- After an end

  /** The hosts once a place was given up: its own is accounted again, with the containers last seen and no process. */
  ghost function HostsWithout(st: State, place: Option<Assignment>, jobs: map<Id, Job>): map<Id, Server>
    requires place.Some? ==> place.value.serverId in st.servers
  {
    if place.None? then st.servers
    else
      var s := place.value.serverId;
      st.servers[s := st.servers[s].(gpus := NormalizeGPUs(s, st.servers[s].gpus, st.servers[s].containers, [], jobs))]
  }

  predicate Placeable(st: State, place: Option<Assignment>) {
    place.Some? ==> place.value.serverId in st.servers && st.servers[place.value.serverId].id == place.value.serverId
  }

  lemma FinishHosts(st: State, commands: map<Id, Command>, job: Job, at: Time)
    requires Placeable(st, job.assignment)
    ensures var next := Finish(st.(commands := commands), job, at);
      && next.servers == HostsWithout(st, job.assignment, next.jobs)
      && next.jobs == st.jobs[job.id := Released(job, at)]
  {
    hide NormalizeGPUs, Released;
    FinishEffectOnJobs(st.(commands := commands), job, at);
    var stored := st.jobs[job.id := job];
    assert stored[job.id := Released(job, at)] == st.jobs[job.id := Released(job, at)];
  }

  lemma PlaceIsKnown(st: State, id: Id)
    requires Valid(st) && id in st.jobs
    ensures st.jobs[id].id == id && JobOk(st.jobs[id]) && Placeable(st, st.jobs[id].assignment)
  {
    if st.jobs[id].assignment.Some? {
      assert Tenant(st.servers, st.jobs[id]);
    }
  }

  /** Whether a new status ends the job, and what it never changes. */
  lemma EndsMeans(job: Job, status: JobStatus, reason: Reason, at: Time)
    requires !Over(job)
    ensures var next := Transition(job, status, reason, at);
      && next.id == job.id && next.assignment == job.assignment && (Over(next) <==> status.Terminal())
      && (Over(Released(next, at)) <==> status.Terminal())
  {
  }

  /** The hosts are as before, or without the place of the job, exactly when the step ended the job. */
  ghost predicate HostsFollow(st: State, next: State, id: Id) {
    id in st.jobs && id in next.jobs && Placeable(st, st.jobs[id].assignment)
    && next.servers == if !Over(st.jobs[id]) && Over(next.jobs[id])
                       then HostsWithout(st, st.jobs[id].assignment, next.jobs) else st.servers
  }

  lemma StopHosts(st: State, step: Step)
    requires Valid(st) && step.StopStep? && step.jobId in st.jobs
    ensures HostsFollow(st, Apply(st, step), step.jobId)
  {
    hide Valid, JobOk, Finish, Transition, Released, StopTermination, HostsWithout, Over, CommandAt;
    PlaceIsKnown(st, step.jobId);
    var j, at := st.jobs[step.jobId], step.at;
    OverMeans(j);
    if !Over(j) && j.status != Stopping {
      var noted := j.(termination := StopTermination(j, at));
      OverMeans(noted);
      O.LiveShape(j);
      EndsMeans(noted, Cancelled, CancelledBeforePlacement, at);
      EndsMeans(noted, Cancelled, CancelledBeforeExecution, at);
      EndsMeans(noted, Cancelled, CancelledBeforeDelivery, at);
      EndsMeans(noted, Stopping, StopRequested, at);
      NothingToLeave(st, j.assignment);
      FinishHosts(st, st.commands, Transition(noted, Cancelled, CancelledBeforeExecution, at), at);
      if j.assignment.Some? {
        var start := CommandAt(st.commands, j.assignment.value.commandId);
        var failed := st.commands[start.id := start.(status := FailedCommand, completedAt := Some(at))];
        FinishHosts(st, failed, Transition(noted, Cancelled, CancelledBeforeDelivery, at), at);
      }
    }
  }

  lemma OverMeans(j: Job)
    ensures Over(j) <==> j.status.Terminal()
  {
  }

  lemma NothingToLeave(st: State, place: Option<Assignment>)
    ensures place.None? ==> forall jobs :: HostsWithout(st, place, jobs) == st.servers
  {
  }

  lemma StatusHosts(st: State, step: Step)
    requires Valid(st) && step.StatusStep? && step.jobId in st.jobs
    ensures HostsFollow(st, Apply(st, step), step.jobId)
  {
    hide Valid, JobOk, Finish, Transition, Released, HostsWithout, Over;
    PlaceIsKnown(st, step.jobId);
    var j := st.jobs[step.jobId];
    OverMeans(j);
    if !Over(j) {
      EndsMeans(j, step.status, step.reason, step.at);
      FinishHosts(st, st.commands, Transition(j, step.status, step.reason, step.at), step.at);
    }
  }

  lemma AckHosts(st: State, step: Step)
    requires Valid(st) && step.AckStep? && step.commandId in st.commands
    requires st.commands[step.commandId].jobId in st.jobs
    ensures HostsFollow(st, Apply(st, step), st.commands[step.commandId].jobId)
  {
    hide Valid, JobOk, Finish, Transition, Released, HostsWithout, Over;
    var c := st.commands[step.commandId];
    var acked := Acknowledge(c, step.ack, step.at);
    PlaceIsKnown(st, c.jobId);
    var j := st.jobs[c.jobId];
    OverMeans(j);
    if !Over(j) {
      OverMeans(j.(containerId := step.ack.containerId));
      OverMeans(j.(termination := ExecutionError));
      EndsMeans(j.(termination := ExecutionError), Failed, LaunchFailed, step.at);
      EndsMeans(j, RunningJob, StopFailed, step.at);
      EndsMeans(j.(containerId := step.ack.containerId), Starting, StartAcknowledged, step.at);
      FinishHosts(st, st.commands[step.commandId := acked],
                  Transition(j.(termination := ExecutionError), Failed, LaunchFailed, step.at), step.at);
    }
  }

  // ---------------------------------------------------------------- What becomes of the GPUs

  /** A stop, a status or an answer that ends a job gives its place back: on its host, and on no other, each GPU is
      accounted by the containers last seen and by the jobs as they now stand. */
  lemma EndingFreesGPUs(st: State, step: Step, id: Id, i: nat)
    requires Valid(st) && id in st.jobs && !Over(st.jobs[id]) && st.jobs[id].assignment.Some?
    requires match step
      case StopStep(jobId, _, _) => jobId == id
      case StatusStep(jobId, _, _, _) => jobId == id
      case AckStep(_, commandId, _, _) => commandId in st.commands && st.commands[commandId].jobId == id
      case _ => false
    requires id in Apply(st, step).jobs && Over(Apply(st, step).jobs[id])
    ensures var s, next := st.jobs[id].assignment.value.serverId, Apply(st, step);
      && s in st.servers && s in next.servers
      && next.servers == st.servers[s := st.servers[s].(gpus := next.servers[s].gpus)]
      && |next.servers[s].gpus| == |st.servers[s].gpus|
      && (i < |st.servers[s].gpus| ==>
            var g, n := st.servers[s].gpus[i], next.servers[s].gpus[i];
            && AccountedAs(s, g, st.servers[s].containers, [], next.jobs, n)
            && (n.state == Free
                <==> && g.healthy && g.state != OccupiedUnknown
                     && (forall c :: c in st.servers[s].containers ==> !Has(c, g.uuid))
                     && (forall j :: j in next.jobs ==> !HeldBy(s, next.jobs[j], g.uuid))))
  {
    hide Valid, Apply, AccountedAs, Over, Has, HeldBy, NormalizeGPU;
    match step {
      case StopStep(_, _, _) => StopHosts(st, step);
      case StatusStep(_, _, _, _) => StatusHosts(st, step);
      case AckStep(_, _, _, _) => AckHosts(st, step);
    }
    var s, next := st.jobs[id].assignment.value.serverId, Apply(st, step);
    if i < |st.servers[s].gpus| {
      StateExactly(s, st.servers[s].gpus[i], st.servers[s].containers, [], next.jobs);
      FreeMeans(s, st.servers[s].gpus[i], st.servers[s].containers, next.jobs, next.servers[s].gpus[i]);
    }
  }

  lemma FreeMeans(s: Id, g: GPU, cs: seq<Container>, jobs: map<Id, Job>, n: GPU)
    requires AccountedAs(s, g, cs, [], jobs, n)
    ensures n.state == Free
       <==> && g.healthy && g.state != OccupiedUnknown
            && (forall c :: c in cs ==> !Has(c, g.uuid)) && (forall j :: j in jobs ==> !HeldBy(s, jobs[j], g.uuid))
  {
    hide Has, HeldBy, Ours, Stray;
  }

  /** A stop, a status or an answer that ends no job leaves every host as it was. */
  lemma NobodyEndedKeepsHosts(st: State, step: Step, id: Id)
    requires Valid(st) && id in st.jobs
    requires match step
      case StopStep(jobId, _, _) => jobId == id
      case StatusStep(jobId, _, _, _) => jobId == id
      case AckStep(_, commandId, _, _) => commandId in st.commands && st.commands[commandId].jobId == id
      case _ => false
    ensures id in Apply(st, step).jobs
    ensures Over(st.jobs[id]) || !Over(Apply(st, step).jobs[id]) || st.jobs[id].assignment.None? ==>
      Apply(st, step).servers == st.servers
  {
    hide Valid, Apply, Over;
    match step {
      case StopStep(_, _, _) => StopHosts(st, step);
      case StatusStep(_, _, _, _) => StatusHosts(st, step);
      case AckStep(_, _, _, _) => AckHosts(st, step);
    }
  }
}
