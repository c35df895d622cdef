/** Every repository step keeps the state invariant, whatever its arguments. */
module StoreInvariant {
  import opened Domain
  import opened Accounting
  import opened Calendar
  import opened StoreSpec
  import opened StoreSteps
  import Sorting

  // ---------------------------------------------------------------- Hardware does not move

  ghost predicate SameHardware(gpus: seq<GPU>, next: seq<GPU>) {
    |gpus| == |next|
    && forall i :: 0 <= i < |gpus| ==>
      next[i] == gpus[i].(state := next[i].state, assignedJob := next[i].assignedJob)
  }

  lemma NormalizingKeepsHardware(serverId: Id, gpus: seq<GPU>, cs: seq<Container>, ps: seq<GPUProcess>, jobs: map<Id,
                                 Job>)
    ensures SameHardware(gpus, NormalizeGPUs(serverId, gpus, cs, ps, jobs))
    ensures GPUsAccounted(serverId, NormalizeGPUs(serverId, gpus, cs, ps, jobs), jobs)
  {
    var next := NormalizeGPUs(serverId, gpus, cs, ps, jobs);
    forall i | 0 <= i < |next| && ReservedIn(serverId, jobs, next[i].uuid) ensures next[i].state != Free {
      FreeExactly(serverId, gpus[i], cs, ps, jobs);
    }
  }

  lemma SameHardwareKeeps(st: State, next: State)
    requires ServersOk(st) && GPUsUnshared(st.servers)
    requires next.machines == st.machines && next.servers.Keys == st.servers.Keys
    requires forall s :: s in st.servers ==>
      next.servers[s].id == st.servers[s].id && SameHardware(st.servers[s].gpus, next.servers[s].gpus)
    ensures ServersOk(next) && GPUsUnshared(next.servers)
  {
    forall s, g | s in next.servers && g in next.servers[s].gpus
      ensures SoundGPU(g) && exists h :: h in st.servers[s].gpus && h.uuid == g.uuid
    {
      var i :| 0 <= i < |next.servers[s].gpus| && next.servers[s].gpus[i] == g;
      assert st.servers[s].gpus[i] in st.servers[s].gpus;
    }
  }

  // ---------------------------------------------------------------- Quiet steps

  lemma EvolvedHolds(j: Job, k: Job, serverId: Id, uuid: Id)
    requires Evolves(j, k) && JobOk(j) && JobOk(k)
    ensures Holds(k, serverId, uuid) ==> Holds(j, serverId, uuid)
    ensures Books(k, serverId, uuid) ==>
      Books(j, serverId, uuid) && j.assignment.value.Window() == k.assignment.value.Window()
  {
  }

  /** A step that only lets jobs and commands evolve, admits unassigned jobs and re-accounts GPUs. */
  ghost predicate Quiet(st: State, next: State) {
    && next.offlineAfter == st.offlineAfter
    && JobsOk(next.jobs)
    && (forall k :: k in st.jobs ==> k in next.jobs && Evolves(st.jobs[k], next.jobs[k]))
    && (forall k :: k in next.jobs && k !in st.jobs ==> next.jobs[k].assignment.None?)
    && (forall k :: k in st.commands ==> k in next.commands && CommandEvolves(st.commands[k], next.commands[k]))
    && (forall k :: k in next.commands && k !in st.commands ==>
          next.commands[k].id == k && k != NO_ID && CommandOk(next.jobs, next.commands, next.commands[k]))
    && (forall s :: s in st.servers ==> s in next.servers && next.servers[s].org == st.servers[s].org)
    && (forall s :: s in next.servers ==>
          GPUsAccounted(s, next.servers[s].gpus, next.jobs)
          || (s in st.servers && next.servers[s].gpus == st.servers[s].gpus))
  }

  lemma QuietKeepsExclusion(st: State, next: State)
    requires Valid(st) && Quiet(st, next)
    ensures Exclusive(next.jobs) && CalendarExclusive(next.jobs) && Tenants(next) && HeldIsNotFree(next)
  {
    hide JobOk, CommandsOk, ServersOk, GPUsUnshared, CommandOk, CommandEvolves;
    forall k, s, u | k in next.jobs && Holds(next.jobs[k], s, u)
      ensures k in st.jobs && Holds(st.jobs[k], s, u)
    {
      EvolvedHolds(st.jobs[k], next.jobs[k], s, u);
    }
    forall k, s, u | k in next.jobs && Books(next.jobs[k], s, u)
      ensures k in st.jobs && Books(st.jobs[k], s, u)
      ensures st.jobs[k].assignment.value.Window() == next.jobs[k].assignment.value.Window()
    {
      EvolvedHolds(st.jobs[k], next.jobs[k], s, u);
    }
    forall k | k in next.jobs ensures Tenant(next.servers, next.jobs[k]) {
      if k in st.jobs { assert Tenant(st.servers, st.jobs[k]); }
    }
    forall s | s in next.servers ensures GPUsAccounted(s, next.servers[s].gpus, next.jobs) {
      if s in st.servers && next.servers[s].gpus == st.servers[s].gpus {
        assert GPUsAccounted(s, st.servers[s].gpus, st.jobs);
      }
    }
  }

  lemma QuietKeepsCommands(st: State, next: State)
    requires Valid(st) && Quiet(st, next)
    ensures CommandsOk(next.jobs, next.commands)
  {
    hide JobOk, ServersOk, GPUsUnshared, Exclusive, CalendarExclusive, HeldIsNotFree, Tenant, GPUsAccounted;
    forall k | k in st.commands ensures CommandOk(next.jobs, next.commands, next.commands[k]) {
      var j := st.commands[k].jobId;
      assert CommandOk(st.jobs, st.commands, st.commands[k]);
      assert Evolves(st.jobs[j], next.jobs[j]);
    }
    forall k | k in next.jobs ensures LaunchOk(next.commands, next.jobs[k]) {
      if k in st.jobs { assert LaunchOk(st.commands, st.jobs[k]) && Evolves(st.jobs[k], next.jobs[k]); }
    }
  }

  lemma QuietStep(st: State, next: State)
    requires Valid(st) && Quiet(st, next) && ServersOk(next) && GPUsUnshared(next.servers)
    ensures Valid(next) && Progress(st, next)
  {
    QuietKeepsExclusion(st, next);
    QuietKeepsCommands(st, next);
    hide JobOk, ServersOk, GPUsUnshared, Exclusive, CalendarExclusive, HeldIsNotFree, Tenants, GPUsAccounted, CommandOk,
         CommandsOk, Evolves, CommandEvolves;
  }

  /** What stays the same evolves. */
  lemma EvolvesAll(st: State)
    requires CommandsOk(st.jobs, st.commands)
    ensures forall k :: k in st.jobs ==> Evolves(st.jobs[k], st.jobs[k])
    ensures forall k :: k in st.commands ==> CommandEvolves(st.commands[k], st.commands[k])
  {
    forall k | k in st.commands ensures CommandEvolves(st.commands[k], st.commands[k]) {
      assert CommandOk(st.jobs, st.commands, st.commands[k]);
    }
  }

  // ---------------------------------------------------------------- Ending a reservation

  /** Storing a terminal job and releasing its host: exactly what changes. */
  lemma FinishEffect(st: State, job: Job, at: Time)
    requires ServersOk(st)
    ensures var next := Finish(st, job, at);
      && next.jobs == st.jobs[job.id := Released(job, at)]
      && next.commands == st.commands && next.machines == st.machines && next.offlineAfter == st.offlineAfter
      && next.servers.Keys == st.servers.Keys
      && (forall s :: s in st.servers ==> next.servers[s] == st.servers[s].(gpus := next.servers[s].gpus))
      && (forall s :: s in st.servers ==>
            next.servers[s].gpus == st.servers[s].gpus
            || next.servers[s].gpus == NormalizeGPUs(s, st.servers[s].gpus, st.servers[s].containers, [], next.jobs))
  {
    hide NormalizeGPUs, ServerOk, Released;
    var stored := st.(jobs := st.jobs[job.id := job]);
    assert stored.jobs[job.id := Released(job, at)] == st.jobs[job.id := Released(job, at)];
    UnassignedStays(job, at);
  }

  lemma UnassignedStays(job: Job, at: Time)
    ensures job.assignment.None? ==> Released(job, at) == job
  {
  }

  lemma ReleasedJob(before: Job, job: Job, at: Time)
    requires JobOk(before) && !before.status.Terminal()
    requires Evolves(before, job) && job.status.Terminal() && LogMatches(job)
    ensures JobOk(Released(job, at)) && Evolves(before, Released(job, at)) && Released(job, at).id == before.id
  {
  }

  lemma FinishKeepsValid(st: State, commands: map<Id, Command>, job: Job, at: Time)
    requires Valid(st) && job.id in st.jobs
    requires job.status.Terminal() && LogMatches(job) && !st.jobs[job.id].status.Terminal()
    requires Evolves(st.jobs[job.id], job)
    requires commands.Keys == st.commands.Keys
    requires forall k :: k in st.commands ==> CommandEvolves(st.commands[k], commands[k])
    ensures Valid(Finish(st.(commands := commands), job, at))
    ensures Progress(st, Finish(st.(commands := commands), job, at))
  {
    hide LogMatches, CommandOk, LaunchOk, CommandEvolves, ServerOk, Tenant, Finish, Released, NormalizeGPUs, Exclusive,
         CalendarExclusive, GPUsUnshared, JobOk, Evolves;
    var mid := st.(commands := commands);
    var next := Finish(mid, job, at);
    FinishEffect(mid, job, at);
    ReleasedJob(st.jobs[job.id], job, at);
    EvolvesAll(st);
    forall s | s in st.servers
      ensures SameHardware(st.servers[s].gpus, next.servers[s].gpus)
      ensures GPUsAccounted(s, next.servers[s].gpus, next.jobs) || next.servers[s].gpus == st.servers[s].gpus
    {
      NormalizingKeepsHardware(s, st.servers[s].gpus, st.servers[s].containers, [], next.jobs);
    }
    SameHardwareKeeps(st, next);
    QuietStep(st, next);
  }

  // ---------------------------------------------------------------- Steps that touch hosts only

  lemma ServersOnlyKeepsValid(st: State, next: State)
    requires Valid(st)
    requires next.jobs == st.jobs && next.commands == st.commands && next.machines == st.machines
    requires next.servers.Keys == st.servers.Keys
    requires forall s :: s in st.servers ==>
      next.servers[s].id == st.servers[s].id
      && next.servers[s].org == st.servers[s].org && next.servers[s].gpus == st.servers[s].gpus
    requires next.offlineAfter == st.offlineAfter
    ensures Valid(next) && Progress(st, next)
  {
    hide JobOk, CommandOk, LaunchOk, CommandEvolves, Tenant, Evolves, ServerOk, Exclusive, CalendarExclusive,
         GPUsUnshared;
    EvolvesAll(st);
    SameHardwareKeeps(st, next);
    QuietStep(st, next);
  }

  ghost function NewHost(st: State, incoming: Server): State {
    st.(machines := st.machines[incoming.machineId := incoming.id], servers := st.servers[incoming.id := incoming])
  }

  lemma NewHostServers(st: State, incoming: Server)
    requires ServersOk(st) && GPUsUnshared(st.servers) && incoming.gpus == [] && incoming.id !in st.servers
    ensures ServersOk(NewHost(st, incoming)) && GPUsUnshared(NewHost(st, incoming).servers)
  {
  }

  lemma UpsertKeepsValid(st: State, incoming: Server)
    requires Valid(st) && SoundRegistration(st, incoming)
    ensures Valid(Apply(st, UpsertStep(incoming))) && Progress(st, Apply(st, UpsertStep(incoming)))
  {
    hide GPUsUnshared, HeldIsNotFree, ServerOk, JobsOk, CommandOk, LaunchOk, Tenant, Exclusive, CalendarExclusive,
         CommandEvolves, Evolves;
    if incoming.machineId !in st.machines {
      EvolvesAll(st);
      NewHostServers(st, incoming);
      assert GPUsAccounted(incoming.id, [], st.jobs);
      QuietStep(st, NewHost(st, incoming));
    } else if UpsertServer(st, incoming).Ok? {
      ServersOnlyKeepsValid(st, Apply(st, UpsertStep(incoming)));
    } else {
      EvolvesAll(st);
    }
  }

  // ---------------------------------------------------------------- Steps that touch one job

  lemma OneJobKeepsValid(st: State, commands: map<Id, Command>, job: Job)
    requires Valid(st) && job.id in st.jobs && Evolves(st.jobs[job.id], job) && JobOk(job)
    requires forall k :: k in st.commands ==> k in commands && CommandEvolves(st.commands[k], commands[k])
    requires forall k :: k in commands && k !in st.commands ==>
      commands[k].id == k && k != NO_ID && CommandOk(st.jobs[job.id := job], commands, commands[k])
    ensures Valid(st.(jobs := st.jobs[job.id := job], commands := commands))
    ensures Progress(st, st.(jobs := st.jobs[job.id := job], commands := commands))
  {
    hide JobOk, LogMatches, CommandOk, LaunchOk, CommandEvolves, Tenant, Evolves, ServerOk, Exclusive,
         CalendarExclusive, GPUsUnshared;
    EvolvesAll(st);
    SameHardwareKeeps(st, st.(jobs := st.jobs[job.id := job], commands := commands));
    QuietStep(st, st.(jobs := st.jobs[job.id := job], commands := commands));
  }

  lemma UnchangedKeepsValid(st: State)
    requires Valid(st)
    ensures Progress(st, st)
  {
    hide JobOk, CommandOk, LaunchOk, CommandEvolves, Tenant, Evolves, ServerOk, Exclusive, CalendarExclusive,
         GPUsUnshared;
    EvolvesAll(st);
  }

  lemma CreateKeepsValid(st: State, job: Job)
    requires Valid(st) && Admitted(job)
    ensures Valid(Apply(st, CreateStep(job))) && Progress(st, Apply(st, CreateStep(job)))
  {
    hide JobOk, LogMatches, CommandOk, LaunchOk, CommandEvolves, Tenant, Evolves, ServerOk, Exclusive,
         CalendarExclusive, GPUsUnshared;
    EvolvesAll(st);
    if job.id !in st.jobs {
      AdmittedIsOk(job);
      SameHardwareKeeps(st, Apply(st, CreateStep(job)));
      QuietStep(st, Apply(st, CreateStep(job)));
    }
  }

  lemma AdmittedIsOk(job: Job)
    requires Admitted(job)
    ensures JobOk(job)
  {
  }

  lemma TrainingKeepsValid(st: State, id: Id, expected: int, next: Training, at: Time)
    requires Valid(st)
    ensures Valid(Apply(st, TrainingStep(id, expected, next, at)))
      && Progress(st, Apply(st, TrainingStep(id, expected, next, at)))
  {
    UnchangedKeepsValid(st);
    if UpdateTraining(st, id, expected, next, at).Ok? {
      assert JobOk(st.jobs[id]);
      EvolvesAll(st);
      OneJobKeepsValid(st, st.commands, Apply(st, TrainingStep(id, expected, next, at)).jobs[id]);
    }
  }

  lemma StatusKeepsValid(st: State, step: Step)
    requires Valid(st) && step.StatusStep? && Legal(st, step)
    ensures Valid(Apply(st, step)) && Progress(st, Apply(st, step))
  {
    hide LogMatches, CommandOk, LaunchOk, CommandEvolves, Tenant, Evolves, ServerOk, Exclusive, CalendarExclusive,
         GPUsUnshared,
         Finish, HeldIsNotFree;
    UnchangedKeepsValid(st);
    EvolvesAll(st);
    var id := step.jobId;
    if id in st.jobs && !StatusIgnored(st.jobs[id], step.status) {
      assert JobOk(st.jobs[id]);
      TransitionEvolves(st.jobs[id], st.jobs[id], step.status, step.reason, step.at);
      var job := Transition(st.jobs[id], step.status, step.reason, step.at);
      if step.status == Failed {
        FinishKeepsValid(st, st.commands, job, step.at);
      } else {
        OneJobKeepsValid(st, st.commands, job);
      }
    }
  }

  /** A queued STOP is a well-formed command of its job. */
  lemma StopCommandOk(st: State, job: Job, command: Command)
    requires Valid(st) && job.id in st.jobs && job.assignment.Some? && Launched(st.jobs[job.id])
    requires Evolves(st.jobs[job.id], job)
    requires NewCommand(command, StopCommand, job.id) && command.id !in st.commands
    requires CommandAt(st.commands, job.assignment.value.commandId).status != Pending
    ensures var stored := command.(agentId := job.assignment.value.serverId);
      CommandOk(st.jobs[job.id := job], st.commands[command.id := stored], stored)
  {
    hide JobOk, CommandOk, Tenants, ServersOk, GPUsUnshared, Exclusive, CalendarExclusive, HeldIsNotFree;
    assert LaunchOk(st.commands, st.jobs[job.id]);
    StoredStopOk(st.jobs, st.commands, job, command);
  }

  lemma StoredStopOk(jobs: map<Id, Job>, commands: map<Id, Command>, job: Job, command: Command)
    requires job.assignment.Some? && job.assignment.value.commandId != NO_ID
    requires job.assignment.value.commandId in commands && commands[job.assignment.value.commandId].status != Pending
    requires NewCommand(command, StopCommand, job.id) && command.id !in commands
    ensures var stored := command.(agentId := job.assignment.value.serverId);
      CommandOk(jobs[job.id := job], commands[command.id := stored], stored)
  {
  }

  lemma CancelledStart(st: State, id: Id, at: Time)
    requires CommandsOk(st.jobs, st.commands)
    requires CommandAt(st.commands, id).status == Pending
    ensures var start := CommandAt(st.commands, id);
      var commands := st.commands[start.id := start.(status := FailedCommand, completedAt := Some(at))];
      start.id == id && commands.Keys == st.commands.Keys
      && forall k :: k in st.commands ==> CommandEvolves(st.commands[k], commands[k])
  {
    EvolvesAll(st);
  }

  lemma StopKeepsValid(st: State, step: Step)
    requires Valid(st) && step.StopStep? && Legal(st, step)
    ensures Valid(Apply(st, step)) && Progress(st, Apply(st, step))
  {
    hide LogMatches, CommandOk, LaunchOk, CommandEvolves, Tenant, Evolves, ServerOk, Exclusive, CalendarExclusive,
         GPUsUnshared,
         Finish, HeldIsNotFree, Transition, JobOk;
    UnchangedKeepsValid(st);
    EvolvesAll(st);
    var id, at := step.jobId, step.at;
    if id in st.jobs && !st.jobs[id].status.Terminal() && st.jobs[id].status != Stopping {
      var job := st.jobs[id].(termination := StopTermination(st.jobs[id], at));
      StoppedJob(st.jobs[id], at);
      if job.status == Queued {
        OneJobKeepsValid(st, st.commands, Transition(job, Cancelled, CancelledBeforePlacement, at));
      } else if job.assignment.Some? && job.assignment.value.commandId == NO_ID {
        FinishKeepsValid(st, st.commands, Transition(job, Cancelled, CancelledBeforeExecution, at), at);
      } else if job.assignment.Some? {
        var start := CommandAt(st.commands, job.assignment.value.commandId);
        if start.status == Pending {
          CancelledStart(st, job.assignment.value.commandId, at);
          FinishKeepsValid(st, st.commands[start.id := start.(status := FailedCommand, completedAt := Some(at))],
                           Transition(job, Cancelled, CancelledBeforeDelivery, at), at);
        } else if step.command.id !in st.commands {
          StopCommandOk(st, Transition(job, Stopping, StopRequested, at), step.command);
          OneJobKeepsValid(st, st.commands[step.command.id := step.command.(agentId := job.assignment.value.serverId)],
                           Transition(job, Stopping, StopRequested, at));
        }
      }
    }
  }

  lemma StoppedJob(before: Job, at: Time)
    requires JobOk(before) && !before.status.Terminal() && before.status != Stopping
    ensures var job := before.(termination := StopTermination(before, at));
      && (job.status == Queued ==>
            var next := Transition(job, Cancelled, CancelledBeforePlacement, at);
            next.id == before.id && JobOk(next) && Evolves(before, next))
      && (forall reason ::
            var next := Transition(job, Cancelled, reason, at);
            next.id == before.id && next.assignment == job.assignment && next.status == Cancelled
            && LogMatches(next) && Evolves(before, next))
      && (Launched(job) ==>
            var next := Transition(job, Stopping, StopRequested, at);
            next.id == before.id && next.assignment == job.assignment && JobOk(next) && Evolves(before, next))
  {
    var job := before.(termination := StopTermination(before, at));
    assert Evolves(before, job) && LogMatches(job);
    forall reason {
      TransitionEvolves(before, job, Cancelled, reason, at);
    }
    TransitionEvolves(before, job, Stopping, StopRequested, at);
  }

  lemma AckedJob(job: Job, command: Command, ack: Ack, at: Time)
    requires JobOk(job) && !job.status.Terminal() && job.assignment.Some? && job.assignment.value.commandId != NO_ID
    ensures var (next, ends) := AckJob(job, command, ack, at);
      next.id == job.id && Evolves(job, next) && LogMatches(next)
      && (if ends then next.status.Terminal() else JobOk(next))
  {
    hide JobOk, Evolves, Transition, LogMatches;
    AckedLaunch(job, job.(termination := ExecutionError), Failed, LaunchFailed, at);
    AckedLaunch(job, job.(containerId := ack.containerId), Starting, StartAcknowledged, at);
    AckedLaunch(job, job, RunningJob, StopFailed, at);
  }

  lemma AckedLaunch(job: Job, noted: Job, status: JobStatus, reason: Reason, at: Time)
    requires JobOk(job) && !job.status.Terminal() && job.assignment.Some? && job.assignment.value.commandId != NO_ID
    requires noted == job.(termination := noted.termination, containerId := noted.containerId)
    ensures var next := Transition(noted, status, reason, at);
      && next.id == job.id && Evolves(job, next) && LogMatches(next) && next.status == status
      && (status == Starting || status == RunningJob ==> JobOk(next))
    ensures JobOk(noted) && Evolves(job, noted) && LogMatches(noted)
  {
    TransitionEvolves(job, noted, status, reason, at);
  }

  lemma AckedCommands(st: State, id: Id, ack: Ack, at: Time)
    requires CommandsOk(st.jobs, st.commands) && id in st.commands && !Acknowledged(st.commands[id])
    ensures var commands := st.commands[id := Acknowledge(st.commands[id], ack, at)];
      commands.Keys == st.commands.Keys && forall k :: k in st.commands ==> CommandEvolves(st.commands[k], commands[k])
  {
    EvolvesAll(st);
  }

  /** The job an acknowledgement is about. */
  lemma AckedTarget(st: State, id: Id)
    requires Valid(st) && id in st.commands
    ensures var command := st.commands[id];
      command.jobId in st.jobs && JobOk(st.jobs[command.jobId]) && st.jobs[command.jobId].id == command.jobId
      && Launched(st.jobs[command.jobId])
  {
    hide JobOk, Tenants, ServersOk, GPUsUnshared, Exclusive, CalendarExclusive, HeldIsNotFree;
    assert CommandOk(st.jobs, st.commands, st.commands[id]);
  }

  lemma AckKeepsValid(st: State, step: Step)
    requires Valid(st) && step.AckStep?
    ensures Valid(Apply(st, step)) && Progress(st, Apply(st, step))
  {
    hide JobOk, LogMatches, CommandOk, LaunchOk, CommandEvolves, ServerOk, Tenant, Evolves, Exclusive,
         CalendarExclusive,
         AckJob, Finish, HeldIsNotFree, GPUsUnshared;
    UnchangedKeepsValid(st);
    EvolvesAll(st);
    var id, at := step.commandId, step.at;
    if id in st.commands && st.commands[id].agentId == step.agentId && !Acknowledged(st.commands[id]) {
      var command := Acknowledge(st.commands[id], step.ack, at);
      var commands := st.commands[id := command];
      AckedCommands(st, id, step.ack, at);
      AckedTarget(st, id);
      var current := st.jobs[command.jobId];
      if AckApplies(st, command) {
        AckedJob(current, command, step.ack, at);
        var (job, ends) := AckJob(current, command, step.ack, at);
        if ends {
          FinishKeepsValid(st, commands, job, at);
        } else {
          OneJobKeepsValid(st, commands, job);
        }
      } else {
        OneJobKeepsValid(st, commands, current);
        assert st.jobs[command.jobId := current] == st.jobs;
      }
    }
  }

  lemma DeliveredEvolves(c: Command, at: Time, lease: int)
    requires !Acknowledged(c)
    ensures CommandEvolves(c, Deliver(c, at, lease))
  {
  }

  lemma LeasedCommands(st: State, agentId: Id, at: Time, lease: int, limit: int)
    requires CommandsOk(st.jobs, st.commands) && agentId in st.servers
    ensures var next := LeaseCommands(st, agentId, at, lease, limit).value;
      next == st.(commands := next.commands) && next.commands.Keys == st.commands.Keys
      && forall k :: k in st.commands ==> CommandEvolves(st.commands[k], next.commands[k])
  {
    var next := LeaseCommands(st, agentId, at, lease, limit).value;
    hide Leasable, LeaseBatch, CommandOk, LaunchOk, Deliver, CommandEvolves, Evolves;
    EvolvesAll(st);
    forall k | k in st.commands ensures CommandEvolves(st.commands[k], next.commands[k]) {
      if st.commands[k] in LeaseBatch(st, agentId, at, limit) {
        LeasedIsLeasable(st, agentId, at, limit, st.commands[k]);
        DeliveredEvolves(st.commands[k], at, lease);
      }
    }
  }

  lemma LeaseKeepsValid(st: State, step: Step)
    requires Valid(st) && step.LeaseStep?
    ensures Valid(Apply(st, step)) && Progress(st, Apply(st, step))
  {
    hide JobOk, LogMatches, LaunchOk, CommandOk, CommandEvolves, Tenant, Evolves, ServerOk, Exclusive,
         CalendarExclusive,
         LeaseBatch, LeaseCommands, HeldIsNotFree, GPUsUnshared;
    UnchangedKeepsValid(st);
    if step.agentId in st.servers {
      LeasedCommands(st, step.agentId, step.at, step.lease, step.limit);
      EvolvesAll(st);
      SameHardwareKeeps(st, Apply(st, step));
      QuietStep(st, Apply(st, step));
    } else {
      NotLeased(st, step);
    }
  }

  lemma NotLeased(st: State, step: Step)
    requires step.LeaseStep? && step.agentId !in st.servers
    ensures Apply(st, step) == st
  {
  }

  /** Only leasable commands are handed out. */
  lemma LeasedIsLeasable(st: State, agentId: Id, now: Time, limit: int, command: Command)
    requires command in LeaseBatch(st, agentId, now, limit)
    ensures Leasable(st, agentId, command, now) && !Acknowledged(command)
    ensures exists k :: k in st.commands && st.commands[k] == command
  {
    var all := Sorting.Elements(LeasableCommands(st, agentId, now));
    Sorting.SortPermutes(CommandBefore, all);
    assert command in all;
  }

  // ---------------------------------------------------------------- Inventory

  lemma TransitionShape(k: Job, status: JobStatus, reason: Reason, at: Time)
    requires LogMatches(k) && !k.status.Terminal()
    ensures var t := Transition(k, status, reason, at);
      && t == k.(termination := t.termination, status := status, reason := t.reason, updatedAt := t.updatedAt,
                 events := t.events)
      && k.events <= t.events && LogMatches(t)
  {
  }

  lemma EvolvesOnwards(job: Job, k: Job, t: Job)
    requires Evolves(job, k) && !job.status.Terminal() && k.events <= t.events
    requires t == k.(termination := t.termination, status := t.status, reason := t.reason, updatedAt := t.updatedAt,
                     events := t.events)
    ensures Evolves(job, t)
  {
  }

  lemma TransitionEvolves(job: Job, k: Job, status: JobStatus, reason: Reason, at: Time)
    requires LogMatches(k) && Evolves(job, k) && !job.status.Terminal() && k.status == job.status
    ensures var t := Transition(k, status, reason, at);
      LogMatches(t) && Evolves(job, t) && t.status == status && t.assignment == k.assignment
  {
    hide Transition, LogMatches, Evolves;
    TransitionShape(k, status, reason, at);
    EvolvesOnwards(job, k, Transition(k, status, reason, at));
  }

  /** The three ways an observation changes a job of its host. */
  lemma ActiveJobOk(job: Job, c: Container, report: Report)
    requires JobOk(job) && !job.status.Terminal() && job.assignment.Some? && job.assignment.value.commandId != NO_ID
    ensures var seen := job.(containerId := c.id, lastObserved := Some(report.observedAt));
      var active := seen.(assignment := Some(seen.assignment.value.(state := AllocatedState)));
      var running := Transition(active, RunningJob, ObservedActive, report.receivedAt);
      && JobOk(seen) && Evolves(job, seen) && JobOk(active) && Evolves(job, active)
      && JobOk(running) && Evolves(job, running) && running.id == job.id
  {
    var seen := job.(containerId := c.id, lastObserved := Some(report.observedAt));
    var active := seen.(assignment := Some(seen.assignment.value.(state := AllocatedState)));
    assert Evolves(job, active);
    TransitionEvolves(job, active, RunningJob, ObservedActive, report.receivedAt);
  }

  lemma EndedJobOk(job: Job, c: Container, report: Report, termination: Termination, status: JobStatus, reason: Reason)
    requires JobOk(job) && !job.status.Terminal() && status.Terminal()
    ensures var seen := job.(containerId := c.id, lastObserved := Some(report.observedAt), termination := termination);
      var ended := Released(Transition(seen, status, reason, report.receivedAt), report.receivedAt);
      JobOk(ended) && Evolves(job, ended) && ended.id == job.id
  {
    var seen := job.(containerId := c.id, lastObserved := Some(report.observedAt), termination := termination);
    assert Evolves(job, seen);
    TransitionEvolves(job, seen, status, reason, report.receivedAt);
    ReleasedJob(job, Transition(seen, status, reason, report.receivedAt), report.receivedAt);
  }

  lemma AbsentJobOk(job: Job, status: JobStatus, reason: Reason, at: Time)
    requires JobOk(job) && !job.status.Terminal() && status.Terminal()
    ensures var ended := Released(Transition(job, status, reason, at), at);
      JobOk(ended) && Evolves(job, ended) && ended.id == job.id
  {
    TransitionEvolves(job, job, status, reason, at);
    ReleasedJob(job, Transition(job, status, reason, at), at);
  }

  lemma ReconciledJobOk(job: Job, serverId: Id, report: Report, commands: map<Id, Command>)
    requires JobOk(job)
    ensures var next := ReconcileJob(job, serverId, report, commands);
      next.id == job.id && JobOk(next) && Evolves(job, next)
  {
    hide JobOk, Transition, Released, Observed, Absent, ExitReason;
    if job.assignment.None? || job.assignment.value.serverId != serverId || job.status.Terminal()
       || job.assignment.value.commandId == NO_ID {
      assert Evolves(job, job);
    } else if Observed(report.containers, job.id).Some? {
      var c := Observed(report.containers, job.id).value;
      var seen := job.(containerId := c.id, lastObserved := Some(report.observedAt));
      ActiveJobOk(job, c, report);
      EndedJobOk(job, c, report, ExecutionError, ExitStatus(seen, c), ExitReason(seen, c));
      EndedJobOk(job, c, report, job.termination, ExitStatus(seen, c), ExitReason(seen, c));
    } else {
      assert Evolves(job, job);
      AbsentJobOk(job, Stopped, AbsentAfterStop, report.receivedAt);
      AbsentJobOk(job, Failed, MissingFromInventory, report.receivedAt);
    }
  }

  lemma ReconciledJobs(st: State, agentId: Id, report: Report)
    requires JobsOk(st.jobs)
    ensures var jobs := Reconcile(st.jobs, agentId, report, st.commands);
      jobs.Keys == st.jobs.Keys && JobsOk(jobs) && forall k :: k in st.jobs ==> Evolves(st.jobs[k], jobs[k])
  {
    hide JobOk, Evolves, ReconcileJob;
    var jobs := Reconcile(st.jobs, agentId, report, st.commands);
    forall k | k in st.jobs ensures JobOk(jobs[k]) && jobs[k].id == k && Evolves(st.jobs[k], jobs[k]) {
      ReconciledJobOk(st.jobs[k], agentId, report, st.commands);
    }
  }

  /** What an accepted report changes: the jobs it reconciles and its own host. */
  lemma InventoryEffect(st: State, agentId: Id, report: Report)
    requires ReplaceInventory(st, agentId, report).Ok?
    ensures agentId in st.servers && !ForeignGPU(st, agentId, report)
    ensures var next := ReplaceInventory(st, agentId, report).value;
      && next.commands == st.commands && next.machines == st.machines && next.offlineAfter == st.offlineAfter
      && next.jobs == (if Complete(report) then Reconcile(st.jobs, agentId, Stamped(report), st.commands) else st.jobs)
      && agentId in next.servers && next.servers == st.servers[agentId := next.servers[agentId]]
      && next.servers[agentId].id == st.servers[agentId].id && next.servers[agentId].org == st.servers[agentId].org
      && next.servers[agentId].gpus ==
           (if GPUValid(report)
            then NormalizeGPUs(agentId, report.gpus, next.servers[agentId].containers, report.processes, next.jobs)
            else st.servers[agentId].gpus)
  {
    hide Reconcile, NormalizeGPUs, ForeignGPU, Capabilities.Normalize;
  }

  lemma InventoryKeepsValid(st: State, agentId: Id, report: Report)
    requires Valid(st) && SoundReport(report)
    ensures Valid(Apply(st, InventoryStep(agentId, report))) && Progress(st, Apply(st, InventoryStep(agentId, report)))
  {
    hide JobOk, LogMatches, LaunchOk, CommandOk, CommandEvolves, Tenant, Evolves, ServerOk, Exclusive,
         CalendarExclusive, HeldIsNotFree, GPUsUnshared, Reconcile, NormalizeGPUs, SoundReport, ForeignGPU,
         ReplaceInventory, Complete, GPUValid, Stamped, GPUsAccounted;
    UnchangedKeepsValid(st);
    if ReplaceInventory(st, agentId, report).Ok? {
      var next := ReplaceInventory(st, agentId, report).value;
      InventoryEffect(st, agentId, report);
      EvolvesAll(st);
      ReconciledJobs(st, agentId, Stamped(report));
      if GPUValid(report) {
        NormalizingKeepsHardware(agentId, report.gpus, next.servers[agentId].containers, report.processes, next.jobs);
        ReportedServers(st, agentId, report, next);
      } else {
        SameHardwareKeeps(st, next);
      }
      QuietStep(st, next);
    }
  }

  lemma ReportedServers(st: State, agentId: Id, report: Report, next: State)
    requires ServersOk(st) && GPUsUnshared(st.servers) && SoundReport(report) && agentId in st.servers
    requires !ForeignGPU(st, agentId, report)
    requires agentId in next.servers && next.servers[agentId].id == agentId
    requires next.machines == st.machines && next.servers == st.servers[agentId := next.servers[agentId]]
    requires SameHardware(report.gpus, next.servers[agentId].gpus)
    ensures ServersOk(next) && GPUsUnshared(next.servers)
  {
    forall g | g in next.servers[agentId].gpus
      ensures SoundGPU(g) && exists h :: h in report.gpus && h.uuid == g.uuid
    {
      var i :| 0 <= i < |next.servers[agentId].gpus| && next.servers[agentId].gpus[i] == g;
      assert report.gpus[i] in report.gpus;
    }
  }

  // ---------------------------------------------------------------- Dispatch

  /** What a successful commit changes. */
  lemma CommitEffect(st: State, step: Step)
    requires Valid(st) && step.CommitStep? && Legal(st, step) && Outcome(st, step).Ok?
    ensures step.jobId in st.jobs && step.placement.serverId in st.servers
    ensures var next, job, p := Apply(st, step), st.jobs[step.jobId], step.placement;
      var server := st.servers[p.serverId];
      && Dispatchable(job, p, step.command, step.at) && server.Schedulable(step.at, st.offlineAfter)
      && PlacementMatches(job, server, p) && step.command.agentId == p.serverId && step.command.id !in st.commands
      && next == st.(jobs := st.jobs[step.jobId := CommittedJob(job, p, step.command, step.at)],
                     commands := st.commands[step.command.id := step.command],
                     servers := st.servers[p.serverId := server.(gpus := ReserveGPUs(server.gpus, p.gpus, step.jobId))])
  {
    hide PlacementMatches, Dispatchable, CommittedJob, ReserveGPUs;
  }

  /** The dispatched job is well formed and keeps any booking it had. */
  lemma CommittedJobOk(job: Job, p: Placement, command: Command, at: Time, server: Server)
    requires JobOk(job) && Dispatchable(job, p, command, at) && PlacementMatches(job, server, p) && command.id != NO_ID
    ensures var done := CommittedJob(job, p, command, at);
      && JobOk(done) && done.id == job.id && done.org == job.org && !done.status.Terminal()
      && done.assignment.Some? && done.assignment.value.commandId == command.id
      && done.assignment.value.serverId == p.serverId && done.assignment.value.gpus == p.gpus
      && done.assignment.value.state == ReservedState
      && job.events < done.events
      && !Launched(job) && Advances(job, done)
      && (forall s, u :: Books(done, s, u) ==>
              Books(job, s, u) && done.assignment.value.Window() == job.assignment.value.Window())
  {
  }

  /** Every GPU taken by a commit was free, so no live job held it. */
  lemma CommitTakesFreeGPUs(st: State, job: Job, server: Server, p: Placement, uuid: Id)
    requires HeldIsNotFree(st) && server.id in st.servers && st.servers[server.id] == server
    requires PlacementMatches(job, server, p) && uuid in p.gpus
    ensures !ReservedIn(server.id, st.jobs, uuid)
  {
    assert GPUsAccounted(server.id, server.gpus, st.jobs);
  }

  ghost function Reserving(st: State, job: Job, server: Server, wanted: seq<Id>): State {
    st.(jobs := st.jobs[job.id := job],
        servers := st.servers[server.id := server.(gpus := ReserveGPUs(server.gpus, wanted, job.id))])
  }

  lemma CommitServers(st: State, job: Job, server: Server, wanted: seq<Id>)
    requires ServersOk(st) && GPUsUnshared(st.servers)
    requires server.id in st.servers && st.servers[server.id] == server
    ensures ServersOk(Reserving(st, job, server, wanted)) && GPUsUnshared(Reserving(st, job, server, wanted).servers)
  {
    var next := Reserving(st, job, server, wanted);
    assert SameHardware(server.gpus, next.servers[server.id].gpus);
    hide ServerOk, GPUsUnshared, ReserveGPUs;
    SameHardwareKeeps(st, next);
  }

  lemma CommitAccounts(st: State, job: Job, server: Server, wanted: seq<Id>)
    requires HeldIsNotFree(st) && server.id in st.servers && st.servers[server.id] == server
    requires forall s, u :: Holds(job, s, u) ==> s == server.id && u in wanted
    ensures HeldIsNotFree(Reserving(st, job, server, wanted))
  {
    var next := Reserving(st, job, server, wanted);
    hide Holds;
    forall s | s in next.servers ensures GPUsAccounted(s, next.servers[s].gpus, next.jobs) {
      assert GPUsAccounted(s, st.servers[s].gpus, st.jobs);
      forall g | g in next.servers[s].gpus && ReservedIn(s, next.jobs, g.uuid) ensures g.state != Free {
        var j :| j in next.jobs && Holds(next.jobs[j], s, g.uuid);
        var i :| 0 <= i < |next.servers[s].gpus| && next.servers[s].gpus[i] == g;
        assert st.servers[s].gpus[i] in st.servers[s].gpus;
        if j != job.id {
          assert ReservedIn(s, st.jobs, g.uuid);
        }
      }
    }
  }

  lemma CommitCommands(st: State, done: Job, command: Command)
    requires JobsOk(st.jobs) && CommandsOk(st.jobs, st.commands) && done.id in st.jobs
    requires !Launched(st.jobs[done.id])
    requires done.assignment.Some? && done.assignment.value.commandId == command.id
      && done.assignment.value.serverId == command.agentId
    requires NewCommand(command, StartCommand, done.id) && command.id !in st.commands
    ensures CommandsOk(st.jobs[done.id := done], st.commands[command.id := command])
  {
    hide JobOk;
    var jobs, commands := st.jobs[done.id := done], st.commands[command.id := command];
    forall k | k in st.commands ensures CommandOk(jobs, commands, commands[k]) {
      assert CommandOk(st.jobs, st.commands, st.commands[k]);
    }
    forall k | k in st.jobs ensures LaunchOk(commands, jobs[k]) {
      assert LaunchOk(st.commands, st.jobs[k]);
    }
  }

  lemma CommitExclusion(st: State, job: Job, done: Job, server: Server, p: Placement)
    requires Valid(st) && done.id in st.jobs && job == st.jobs[done.id]
    requires server.id in st.servers && st.servers[server.id] == server && PlacementMatches(job, server, p)
    requires forall s, u :: Holds(done, s, u) ==> s == server.id && u in p.gpus
    requires forall s, u :: Books(done, s, u) ==>
      Books(job, s, u) && done.assignment.value.Window() == job.assignment.value.Window()
    ensures Exclusive(st.jobs[done.id := done]) && CalendarExclusive(st.jobs[done.id := done])
  {
    hide JobsOk, CommandsOk, ServersOk, GPUsUnshared, Tenants;
    forall i, s, u | i in st.jobs && i != done.id && Holds(done, s, u) ensures !Holds(st.jobs[i], s, u) {
      CommitTakesFreeGPUs(st, job, server, p, u);
    }
    hide PlacementMatches, HeldIsNotFree, Holds, Books;
  }

  /** The commit seen as a change of one job, one host and one command. */
  lemma CommitIsReserving(st: State, step: Step) returns (job: Job, done: Job, server: Server)
    requires Valid(st) && step.CommitStep? && Legal(st, step) && Outcome(st, step).Ok?
    ensures step.jobId in st.jobs && job == st.jobs[step.jobId] && done.id == step.jobId
    ensures server.id in st.servers && st.servers[server.id] == server && PlacementMatches(job, server, step.placement)
    ensures JobOk(done) && SameOrganization(done.org, server.org) && step.command.id !in st.commands
    ensures !Launched(job) && Advances(job, done)
    ensures done.assignment.Some? && done.assignment.value.commandId == step.command.id
    ensures done.assignment.value.serverId == server.id == step.command.agentId
    ensures forall s, u :: Holds(done, s, u) ==> s == server.id && u in step.placement.gpus
    ensures forall s, u :: Books(done, s, u) ==>
      Books(job, s, u) && done.assignment.value.Window() == job.assignment.value.Window()
    ensures Apply(st, step) == Reserving(st, done, server, step.placement.gpus)
                               .(commands := st.commands[step.command.id := step.command])
  {
    CommitEffect(st, step);
    job, server := st.jobs[step.jobId], st.servers[step.placement.serverId];
    done := CommittedJob(job, step.placement, step.command, step.at);
    assert JobOk(job) && job.id == step.jobId && SameOrganization(job.org, server.org);
    CommittedJobOk(job, step.placement, step.command, step.at, server);
  }

  lemma FailedStep(st: State, step: Step)
    requires Outcome(st, step).Err?
    ensures Apply(st, step) == st
  {
  }

  lemma CommitKeepsValid(st: State, step: Step)
    requires Valid(st) && step.CommitStep? && Legal(st, step)
    ensures Valid(Apply(st, step)) && Progress(st, Apply(st, step))
  {
    hide Apply, Outcome, JobOk, LogMatches, CommandOk, LaunchOk, ServerOk, Tenant, PlacementMatches, Holds, Books,
         ReserveGPUs, Exclusive, CalendarExclusive, GPUsAccounted, GPUsUnshared, Evolves, CommandEvolves, Launched;
    UnchangedKeepsValid(st);
    if Outcome(st, step).Err? {
      FailedStep(st, step);
    } else {
      var job, done, server := CommitIsReserving(st, step);
      EvolvesAll(st);
      CommitServers(st, done, server, step.placement.gpus);
      CommitAccounts(st, done, server, step.placement.gpus);
      CommitCommands(st, done, step.command);
      CommitExclusion(st, job, done, server, step.placement);
      CommitTenants(st, done, Apply(st, step).servers);
    }
  }

  lemma CommitTenants(st: State, done: Job, servers: map<Id, Server>)
    requires Tenants(st) && done.assignment.Some? && done.assignment.value.serverId in st.servers
    requires SameOrganization(done.org, st.servers[done.assignment.value.serverId].org)
    requires servers.Keys == st.servers.Keys && forall s :: s in servers ==> servers[s].org == st.servers[s].org
    ensures Tenants(st.(jobs := st.jobs[done.id := done], servers := servers))
  {
    forall k | k in st.jobs ensures Tenant(servers, st.jobs[k]) {
      assert Tenant(st.servers, st.jobs[k]);
    }
  }
}
