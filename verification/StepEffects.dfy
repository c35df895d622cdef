/** What the steps that end or re-word a job leave behind: one new version of one job, re-accounted hosts, and
  commands that keep their identity. Every result about such a step starts from here. */
module StepEffects {
  import opened Domain
  import opened Accounting
  import opened StoreSpec
  import opened StoreSteps
  import opened StoreInvariant

  lemma FinishEffectOnJobs(st: State, job: Job, at: Time)
    ensures Finish(st, job, at).jobs == st.jobs[job.id := Released(job, at)]
    ensures Finish(st, job, at).commands == st.commands && Finish(st, job, at).offlineAfter == st.offlineAfter
  {
    assert st.jobs[job.id := job][job.id := Released(job, at)] == st.jobs[job.id := Released(job, at)];
  }

  /** Hosts change in their GPUs only, and these are as before or accounted again without processes. */
  ghost predicate Reaccounts(st: State, next: State) {
    && next.servers.Keys == st.servers.Keys && next.machines == st.machines && next.offlineAfter == st.offlineAfter
    && (forall s :: s in st.servers ==> next.servers[s] == st.servers[s].(gpus := next.servers[s].gpus))
    && (forall s :: s in st.servers ==>
          next.servers[s].gpus == st.servers[s].gpus
          || next.servers[s].gpus == NormalizeGPUs(s, st.servers[s].gpus, st.servers[s].containers, [], next.jobs))
  }

  /** No command disappears or changes its kind or its job, and none but `added` is new. */
  predicate KeepsCommands(before: map<Id, Command>, after: map<Id, Command>, added: Id) {
    && (forall k :: k in before ==> k in after && after[k].kind == before[k].kind && after[k].jobId == before[k].jobId)
    && (forall k :: k in after && k !in before ==> k == added)
  }

  lemma Unchanged(st: State, added: Id)
    ensures Reaccounts(st, st) && KeepsCommands(st.commands, st.commands, added)
  {
  }

  lemma FinishReaccounts(st: State, commands: map<Id, Command>, job: Job, at: Time)
    requires ServersOk(st)
    ensures Reaccounts(st, Finish(st.(commands := commands), job, at))
    ensures Finish(st.(commands := commands), job, at).jobs == st.jobs[job.id := Released(job, at)]
    ensures Finish(st.(commands := commands), job, at).commands == commands
  {
    hide ServerOk, Finish, Released;
    FinishEffect(st.(commands := commands), job, at);
  }

  /** What a live job records when it gets a new status. */
  lemma TransitionMeans(job: Job, status: JobStatus, reason: Reason, at: Time)
    requires job.status !in {Stopped, Succeeded, Failed, Cancelled} && job.status != status
    ensures var next := Transition(job, status, reason, at);
      && next == job.(termination := next.termination, status := status, reason := reason, updatedAt := at,
                      events := job.events + [Event(job.id, status, reason, at)])
      && next.termination ==
           (if status == Succeeded then Completed
            else if job.termination != NoTermination then job.termination
            else if status == Failed then SystemError else if status == Cancelled then UserCancelled else NoTermination)
  {
  }

  lemma ReleasedMeans(job: Job, at: Time)
    requires job.assignment.Some?
    ensures Released(job, at)
         == job.(assignment := Some(job.assignment.value.(state := ReleasedState, releasedAt := Some(at))))
  {
  }

  // ---------------------------------------------------------------- A stop

  /** The new version of the job a stop request is about. */
  function StopVersion(commands: map<Id, Command>, job: Job, order: Command, at: Time): Job {
    var noted := job.(termination := StopTermination(job, at));
    if job.status.Terminal() || job.status == Stopping then job
    else if job.status == Queued then Transition(noted, Cancelled, CancelledBeforePlacement, at)
    else if job.assignment.None? then job
    else if job.assignment.value.commandId == NO_ID
        then Released(Transition(noted, Cancelled, CancelledBeforeExecution, at), at)
    else if CommandAt(commands, job.assignment.value.commandId).status == Pending then
      Released(Transition(noted, Cancelled, CancelledBeforeDelivery, at), at)
    else if order.id in commands then job
    else Transition(noted, Stopping, StopRequested, at)
  }

  lemma StopEffect(st: State, step: Step)
    requires ServersOk(st) && WellKeyed(st.jobs) && step.StopStep?
    requires forall k :: k in st.commands ==> st.commands[k].id == k
    ensures var next := Apply(st, step);
      && next.jobs == (if step.jobId in st.jobs
                       then st.jobs[step.jobId := StopVersion(st.commands, st.jobs[step.jobId], step.command, step.at)]
                       else st.jobs)
      && Reaccounts(st, next) && KeepsCommands(st.commands, next.commands, step.command.id)
      && (step.command.id in next.commands && step.command.id !in st.commands ==>
            next.commands[step.command.id].kind == step.command.kind)
  {
    hide Finish, Transition, StopTermination, Reaccounts, Released, ServersOk;
    Unchanged(st, step.command.id);
    var id, at := step.jobId, step.at;
    if id in st.jobs {
      var job := st.jobs[id].(termination := StopTermination(st.jobs[id], at));
      TransitionNamesJob(job, Cancelled, CancelledBeforeExecution, at);
      TransitionNamesJob(job, Cancelled, CancelledBeforeDelivery, at);
      FinishReaccounts(st, st.commands, Transition(job, Cancelled, CancelledBeforeExecution, at), at);
      if job.assignment.Some? {
        var start := CommandAt(st.commands, job.assignment.value.commandId);
        FinishReaccounts(st, st.commands[start.id := start.(status := FailedCommand, completedAt := Some(at))],
                         Transition(job, Cancelled, CancelledBeforeDelivery, at), at);
      }
      OnlyJobsAndCommands(st, Apply(st, step));
    }
  }

  lemma OnlyJobsAndCommands(st: State, next: State)
    ensures next == st.(jobs := next.jobs, commands := next.commands) ==> Reaccounts(st, next)
  {
  }

  lemma TransitionNamesJob(job: Job, status: JobStatus, reason: Reason, at: Time)
    ensures Transition(job, status, reason, at).id == job.id
    ensures Released(Transition(job, status, reason, at), at).id == job.id
  {
  }

  // ---------------------------------------------------------------- A status

  function StatusVersion(job: Job, status: JobStatus, reason: Reason, at: Time): Job {
    if StatusIgnored(job, status) then job
    else if status.Terminal() then Released(Transition(job, status, reason, at), at)
    else Transition(job, status, reason, at)
  }

  lemma StatusEffect(st: State, step: Step)
    requires ServersOk(st) && WellKeyed(st.jobs) && step.StatusStep?
    ensures var next := Apply(st, step);
      && next.jobs == (if step.jobId in st.jobs
                       then st.jobs[step.jobId := StatusVersion(st.jobs[step.jobId], step.status, step.reason, step.at)]
                       else st.jobs)
      && Reaccounts(st, next) && next.commands == st.commands
  {
    hide Finish, Transition, Reaccounts, Released, StatusIgnored, ServersOk;
    Unchanged(st, NO_ID);
    if step.jobId in st.jobs {
      TransitionNamesJob(st.jobs[step.jobId], step.status, step.reason, step.at);
      FinishReaccounts(st, st.commands, Transition(st.jobs[step.jobId], step.status, step.reason, step.at), step.at);
      OnlyJobsAndCommands(st, Apply(st, step));
    }
  }

  // ---------------------------------------------------------------- An acknowledgement

  /** The acknowledgement is the first one of this command, and its job is alive on the command's host. */
  predicate AckCounts(st: State, step: Step)
    requires step.AckStep?
  {
    step.commandId in st.commands && st.commands[step.commandId].agentId == step.agentId
    && !Acknowledged(st.commands[step.commandId]) && AckApplies(st, st.commands[step.commandId])
  }

  function AckVersion(job: Job, command: Command, ack: Ack, at: Time): Job {
    var (next, ends) := AckJob(job, command, ack, at);
    if ends then Released(next, at) else next
  }

  lemma AckNamesJob(job: Job, command: Command, ack: Ack, at: Time)
    ensures AckJob(job, command, ack, at).0.id == job.id
  {
  }

  lemma AckEffect(st: State, step: Step)
    requires ServersOk(st) && WellKeyed(st.jobs) && step.AckStep?
    ensures var next := Apply(st, step);
      && next.jobs == (if AckCounts(st, step)
                       then
                         var command := st.commands[step.commandId];
                         st.jobs[command.jobId := AckVersion(st.jobs[command.jobId], command, step.ack, step.at)]
                       else st.jobs)
      && Reaccounts(st, next)
  {
    hide Finish, Transition, Reaccounts, Released, ServersOk, AckJob;
    Unchanged(st, NO_ID);
    if AckCounts(st, step) {
      var command := Acknowledge(st.commands[step.commandId], step.ack, step.at);
      var job := st.jobs[command.jobId];
      AckNamesJob(job, command, step.ack, step.at);
      AckReadsCommand(job, st.commands[step.commandId], command, step.ack, step.at);
      FinishReaccounts(st, st.commands[step.commandId := command], AckJob(job, command, step.ack, step.at).0, step.at);
    }
    OnlyJobsAndCommands(st, Apply(st, step));
  }

  /** Such a step changes hosts by re-accounting them only. */
  lemma EndingReaccounts(st: State, step: Step)
    requires Valid(st) && (step.StopStep? || step.StatusStep? || step.AckStep?)
    ensures Reaccounts(st, Apply(st, step))
  {
    hide GPUsUnshared, Tenants, Exclusive, HeldIsNotFree, CalendarExclusive, ServersOk, JobOk, CommandOk, LaunchOk,
         Reaccounts, Apply, StopVersion, StatusVersion, AckVersion;
    if step.StopStep? { StopEffect(st, step); }
    if step.StatusStep? { StatusEffect(st, step); }
    if step.AckStep? { AckEffect(st, step); }
  }

  lemma AckReadsCommand(job: Job, c: Command, d: Command, ack: Ack, at: Time)
    requires c.kind == d.kind
    ensures AckJob(job, c, ack, at) == AckJob(job, d, ack, at)
  {
  }
}
