/** What each repository step does, in the fields of hosts, jobs and commands. */
module StepOutcomes {
  import opened Domain
  import opened Accounting
  import opened Calendar
  import opened StoreSpec
  import opened StoreSteps
  import opened StoreInvariant
  import opened StoreRuns
  import opened StepEffects
  import opened InventoryOutcomes

  // ---------------------------------------------------------------- Hosts

  /** A machine seen before keeps its host, its drain flag and its last GPUs and containers, and must send a new
      inventory under a new numbering; it is refused under another owner or, when owned, another identifier. */
  lemma RegistrationOutcome(st: State, incoming: Server)
    requires Valid(st)
    ensures match UpsertServer(st, incoming)
      case Err(e) =>
        && e == Conflict && incoming.machineId in st.machines
        && var a := st.servers[st.machines[incoming.machineId]];
           a.org != incoming.org || (incoming.org != NO_ID && incoming.id != a.id)
      case Ok(next) =>
        && next == st.(servers := next.servers, machines := next.machines)
        && if incoming.machineId in st.machines
           then
             var id := st.machines[incoming.machineId];
             && next.machines == st.machines && id in next.servers && next.servers == st.servers[id := next.servers[id]]
             && var a, b := st.servers[id], next.servers[id];
                && a.org == incoming.org && (incoming.org == NO_ID || incoming.id == a.id)
                && b.caps == incoming.caps && b.labels == incoming.labels && b.lastHeartbeat == incoming.lastHeartbeat
                && b.status == (if a.drained then Draining else Online) && b.drained == a.drained
                && b.inventoryReceived == ZERO_TIME && b.version == 0
                && b.gpus == a.gpus && b.containers == a.containers
                && b.id == a.id && b.org == a.org && b.machineId == a.machineId
           else
             && next.machines == st.machines[incoming.machineId := incoming.id]
             && next.servers == st.servers[incoming.id := incoming]
  {
    hide JobsOk, GPUsUnshared, CommandsOk, Tenants, Exclusive, HeldIsNotFree, CalendarExclusive, ServerOk;
  }

  /** A heartbeat brings a host back on line; after a silence longer than the timeout, or while off line, its
      inventory no longer counts. */
  lemma HeartbeatOutcome(st: State, agentId: Id, at: Time)
    ensures match Heartbeat(st, agentId, at)
      case Err(e) => e == NotFound && agentId !in st.servers
      case Ok(next) =>
        && agentId in st.servers && agentId in next.servers
        && next == st.(servers := st.servers[agentId := next.servers[agentId]])
        && var a, b := st.servers[agentId], next.servers[agentId];
           && b == a.(lastHeartbeat := at, status := b.status, inventoryReceived := b.inventoryReceived)
           && b.status == (if a.drained then Draining else Online)
           && b.inventoryReceived ==
                (if a.status == Offline || a.lastHeartbeat + st.offlineAfter < at then ZERO_TIME
                 else a.inventoryReceived)
  {
  }

  /** Draining and undraining leave a host that is off line off line. */
  lemma DrainOutcome(st: State, serverId: Id, drained: bool)
    ensures match SetServerDrained(st, serverId, drained)
      case Err(e) => e == NotFound && serverId !in st.servers
      case Ok(next) =>
        && serverId in st.servers && serverId in next.servers
        && next == st.(servers := st.servers[serverId := next.servers[serverId]])
        && var a, b := st.servers[serverId], next.servers[serverId];
           && b == a.(drained := drained, status := b.status)
           && (b.status == Offline <==> a.status == Offline)
           && (b.status == Draining <==> a.status != Offline && drained)
           && (b.status == Online <==> a.status != Offline && !drained)
  {
  }

  /** Once undrained, a host that is on line, ready and heard from within the timeout can take placements again, and
      no other host can. */
  lemma UndrainedTakesPlacements(st: State, serverId: Id, now: Time)
    requires serverId in st.servers
    ensures var step := DrainStep(serverId, false);
      && serverId in Apply(st, step).servers
      && var a, b := st.servers[serverId], Apply(st, step).servers[serverId];
         b.Schedulable(now, st.offlineAfter)
         <==> && a.status != Offline && a.caps.Some? && a.caps.value.ready && a.inventoryReceived != ZERO_TIME
              && now <= a.lastHeartbeat + st.offlineAfter && now <= a.inventoryReceived + st.offlineAfter
  {
  }

  /** The sweep takes off line exactly the hosts last heard from before the given time. */
  lemma StaleOutcome(st: State, before: Time)
    ensures var next := MarkStaleServers(st, before);
      && next == st.(servers := next.servers) && next.servers.Keys == st.servers.Keys
      && forall s :: s in st.servers ==>
           next.servers[s] ==
             if st.servers[s].lastHeartbeat < before then st.servers[s].(status := Offline) else st.servers[s]
  {
  }

  lemma RestartOutcome(st: State)
    ensures var next := Restart(st);
      && next == st.(servers := next.servers) && next.servers.Keys == st.servers.Keys
      && forall s :: s in st.servers ==>
           next.servers[s].status == Offline && next.servers[s].inventoryReceived == ZERO_TIME
           && next.servers[s] == st.servers[s].(status := Offline, inventoryReceived := ZERO_TIME)
  {
  }

  // ---------------------------------------------------------------- Admission and status

  lemma AdmissionOutcome(st: State, job: Job)
    ensures match CreateJob(st, job)
      case Err(e) => e == Conflict && job.id in st.jobs
      case Ok(next) => job.id !in st.jobs && next == st.(jobs := st.jobs[job.id := job])
  {
  }

  /** A live job may be given a new status, but only a queued job is put back into the queue or fails this way, and only
      a booking that was not launched is assigned. */
  predicate MayBecome(j: Job, status: JobStatus) {
    && j.status !in {Stopped, Succeeded, Failed, Cancelled}
    && (status in {Queued, Failed} ==> j.status == Queued)
    && (status == Assigned ==>
          j.status == Assigned && j.assignment.Some? && j.assignment.value.commandId == NO_ID)
  }

  /** The job under its new status, which an ended job leaves with its booking released. */
  predicate BecameAs(j: Job, k: Job, status: JobStatus, reason: Reason, at: Time) {
    && k == j.(status := status, reason := reason, updatedAt := at, termination := k.termination,
               assignment := k.assignment, events := j.events + [Event(j.id, status, reason, at)])
    && k.termination ==
         (if status == Succeeded then Completed
          else if j.termination != NoTermination then j.termination
          else if status == Failed then SystemError
          else if status == Cancelled then UserCancelled
          else NoTermination)
    && k.assignment ==
         (if j.assignment.Some? && status in {Stopped, Succeeded, Failed, Cancelled}
          then Some(j.assignment.value.(state := ReleasedState, releasedAt := Some(at))) else j.assignment)
  }

  /** A status step changes a job that may become that and is not so yet, for the same reason; it is no error to ask for
      anything else of a job that exists. */
  lemma StatusOutcome(st: State, step: Step)
    requires Valid(st) && step.StatusStep?
    ensures step.jobId !in st.jobs ==> Outcome(st, step) == Err(NotFound)
    ensures step.jobId in st.jobs ==>
      && Outcome(st, step).Ok? && step.jobId in Apply(st, step).jobs
      && Apply(st, step).commands == st.commands
      && Apply(st, step).jobs == st.jobs[step.jobId := Apply(st, step).jobs[step.jobId]]
      && var j, k := st.jobs[step.jobId], Apply(st, step).jobs[step.jobId];
         if MayBecome(j, step.status) && (j.status != step.status || j.reason != step.reason)
         then BecameAs(j, k, step.status, step.reason, step.at)
         else k == j
  {
    hide GPUsUnshared, CommandsOk, Tenants, Exclusive, HeldIsNotFree, CalendarExclusive, ServersOk, JobOk, Reaccounts,
         Apply, Outcome, Transition, MayBecome, BecameAs;
    ValidParts(st);
    StatusEffect(st, step);
    StatusKnown(st, step);
    if step.jobId in st.jobs {
      StatusMeans(st.jobs[step.jobId], step.status, step.reason, step.at);
    }
  }

  lemma ValidParts(st: State)
    requires Valid(st)
    ensures ServersOk(st) && WellKeyed(st.jobs) && CommandsOk(st.jobs, st.commands)
    ensures forall k :: k in st.commands ==> st.commands[k].id == k
  {
  }

  lemma StatusKnown(st: State, step: Step)
    requires step.StatusStep?
    ensures if step.jobId in st.jobs then Outcome(st, step).Ok? else Outcome(st, step) == Err(NotFound)
  {
    hide Finish, Transition, StatusIgnored;
  }

  lemma StatusMeans(j: Job, status: JobStatus, reason: Reason, at: Time)
    ensures var k := StatusVersion(j, status, reason, at);
      if MayBecome(j, status) && (j.status != status || j.reason != reason)
      then BecameAs(j, k, status, reason, at)
      else k == j
  {
  }

  // ---------------------------------------------------------------- A stop request

  /** The end of the requested time, when there is one. */
  function EndOf(job: Job): Option<Time> {
    if job.neededAt.Needed? && job.neededAt.at != ZERO_TIME && 0 < job.ttlSeconds <= 9_223_372_036
    then Some(job.neededAt.at + job.ttlSeconds * 1_000_000_000) else None
  }

  lemma WindowMeans(j: Job)
    ensures j.RequestedWindow().Valid() <==> EndOf(j).Some?
    ensures EndOf(j).Some? ==> j.RequestedWindow().start == j.neededAt.at && j.RequestedWindow().end == EndOf(j).value
  {
  }

  /** A stop at or after that end is put down to the time limit, an earlier one to the user; a reason already there
      stays. */
  function StopReason(job: Job, at: Time): Termination {
    if job.termination != NoTermination then job.termination
    else if EndOf(job).Some? && EndOf(job).value <= at then TimeLimit else UserCancelled
  }

  lemma StopReasonMeans(job: Job, at: Time)
    ensures StopTermination(job, at) == StopReason(job, at)
  {
  }

  datatype StopCase = Nobody | Over | InQueue | NotLaunched | NotDelivered | OnItsWay | Taken

  /** Where the job stands when the stop comes. */
  function StopCaseOf(st: State, id: Id, command: Id): StopCase {
    if id !in st.jobs then Nobody
    else
      var j := st.jobs[id];
      if j.status in {Stopped, Succeeded, Failed, Cancelled, Stopping} then Over
      else if j.status == Queued then InQueue
      else if j.assignment.None? || j.assignment.value.commandId == NO_ID then NotLaunched
      else if j.assignment.value.commandId in st.commands
              && st.commands[j.assignment.value.commandId].status == Pending then NotDelivered
      else if command in st.commands then Taken
      else OnItsWay
  }

  /** The job after a cancellation. */
  predicate CancelledAs(j: Job, k: Job, reason: Reason, at: Time) {
    && k.status == Cancelled && k.termination == StopReason(j, at) && k.reason == reason && k.updatedAt == at
    && k.events == j.events + [Event(j.id, Cancelled, reason, at)] && k.containerId == j.containerId
    && (j.assignment.None? ==> k.assignment.None?)
    && (j.assignment.Some? ==>
          k.assignment == Some(j.assignment.value.(state := ReleasedState, releasedAt := Some(at))))
  }

  /** The answer to a stop request, and the commands it leaves. */
  lemma StopCommands(st: State, step: Step)
    requires step.StopStep? && CommandsOk(st.jobs, st.commands)
    requires step.jobId in st.jobs && StopCaseOf(st, step.jobId, step.command.id) !in {Over, InQueue} ==>
      st.jobs[step.jobId].assignment.Some?
    ensures var id, order, at := step.jobId, step.command, step.at;
      match StopCaseOf(st, id, order.id)
      case Nobody => Outcome(st, step) == Err(NotFound)
      case Over => Outcome(st, step) == Ok(st)
      case Taken => Outcome(st, step) == Err(Conflict)
      case InQueue => Outcome(st, step).Ok? && Apply(st, step).commands == st.commands
      case NotLaunched => Outcome(st, step).Ok? && Apply(st, step).commands == st.commands
      case NotDelivered =>
        var start := st.jobs[id].assignment.value.commandId;
        && Outcome(st, step).Ok?
        && Apply(st, step).commands
           == st.commands[start := st.commands[start].(status := FailedCommand, completedAt := Some(at))]
      case OnItsWay =>
        && Outcome(st, step).Ok?
        && Apply(st, step).commands
           == st.commands[order.id := order.(agentId := st.jobs[id].assignment.value.serverId)]
  {
    hide Finish, Transition, Released, StopTermination, CommandOk, LaunchOk;
    var id, at := step.jobId, step.at;
    if id in st.jobs {
      var job := st.jobs[id].(termination := StopTermination(st.jobs[id], at));
      FinishEffectOnJobs(st, Transition(job, Cancelled, CancelledBeforeExecution, at), at);
      if job.assignment.Some? {
        var start := CommandAt(st.commands, job.assignment.value.commandId);
        FinishEffectOnJobs(
          st.(commands := st.commands[start.id := start.(status := FailedCommand, completedAt := Some(at))]),
          Transition(job, Cancelled, CancelledBeforeDelivery, at), at);
      }
    }
  }

  /** The new versions of a live job that is not stopping. */
  lemma CancelledMeans(job: Job, at: Time)
    ensures job.status !in {Stopped, Succeeded, Failed, Cancelled, Stopping} ==>
      var noted := job.(termination := StopTermination(job, at));
      && (forall reason {:trigger Transition(noted, Cancelled, reason, at)} ::
            CancelledAs(job, Released(Transition(noted, Cancelled, reason, at), at), reason, at)
            && (job.assignment.None? ==> CancelledAs(job, Transition(noted, Cancelled, reason, at), reason, at)))
      && Transition(noted, Stopping, StopRequested, at)
         == job.(status := Stopping, termination := StopReason(job, at), reason := StopRequested, updatedAt := at,
                 events := job.events + [Event(job.id, Stopping, StopRequested, at)])
  {
    hide Transition, Released, StopTermination, StopReason;
    if job.status !in {Stopped, Succeeded, Failed, Cancelled, Stopping} {
      StopReasonMeans(job, at);
      ReasonIsKnown(job, at);
      var noted := job.(termination := StopTermination(job, at));
      forall reason
        ensures CancelledAs(job, Released(Transition(noted, Cancelled, reason, at), at), reason, at)
        ensures job.assignment.None? ==> CancelledAs(job, Transition(noted, Cancelled, reason, at), reason, at)
      {
        TransitionMeans(noted, Cancelled, reason, at);
        if job.assignment.Some? {
          ReleasedMeans(Transition(noted, Cancelled, reason, at), at);
        } else {
          NothingToRelease(Transition(noted, Cancelled, reason, at), at);
        }
      }
      TransitionMeans(noted, Stopping, StopRequested, at);
    }
  }

  lemma NothingToRelease(job: Job, at: Time)
    requires job.assignment.None?
    ensures Released(job, at) == job
  {
  }

  lemma ReasonIsKnown(job: Job, at: Time)
    ensures StopReason(job, at) != NoTermination
  {
  }

  /** A stop cancels a job that was not launched, or whose START was not handed out, which then fails; otherwise the
      job is stopping and a STOP for its own host is queued. Nothing happens to a job that has ended or is stopping. */
  lemma StopOutcome(st: State, step: Step)
    requires Valid(st) && step.StopStep?
    ensures var id, order, at := step.jobId, step.command, step.at;
      match StopCaseOf(st, id, order.id)
      case Nobody => Outcome(st, step) == Err(NotFound)
      case Over => Outcome(st, step) == Ok(st)
      case Taken => Outcome(st, step) == Err(Conflict)
      case InQueue =>
        && Outcome(st, step).Ok? && Apply(st, step).commands == st.commands && id in Apply(st, step).jobs
        && CancelledAs(st.jobs[id], Apply(st, step).jobs[id], CancelledBeforePlacement, at)
      case NotLaunched =>
        && Outcome(st, step).Ok? && Apply(st, step).commands == st.commands && id in Apply(st, step).jobs
        && CancelledAs(st.jobs[id], Apply(st, step).jobs[id], CancelledBeforeExecution, at)
      case NotDelivered =>
        var start := st.jobs[id].assignment.value.commandId;
        && Outcome(st, step).Ok? && id in Apply(st, step).jobs
        && Apply(st, step).commands
           == st.commands[start := st.commands[start].(status := FailedCommand, completedAt := Some(at))]
        && CancelledAs(st.jobs[id], Apply(st, step).jobs[id], CancelledBeforeDelivery, at)
      case OnItsWay =>
        && Outcome(st, step).Ok? && id in Apply(st, step).jobs
        && Apply(st, step).commands
           == st.commands[order.id := order.(agentId := st.jobs[id].assignment.value.serverId)]
        && var j, k := st.jobs[id], Apply(st, step).jobs[id];
           k == j.(status := Stopping, termination := StopReason(j, at), reason := StopRequested, updatedAt := at,
                   events := j.events + [Event(j.id, Stopping, StopRequested, at)])
    ensures Outcome(st, step).Ok? && step.jobId in st.jobs ==>
      step.jobId in Apply(st, step).jobs
      && Apply(st, step).jobs == st.jobs[step.jobId := Apply(st, step).jobs[step.jobId]]
  {
    hide JobOk, Valid, JobsOk, CommandsOk, WellKeyed, ServersOk, Reaccounts, KeepsCommands, RequestStop, Transition,
         Released, StopTermination, StopReason;
    ValidParts(st);
    StopEffect(st, step);
    if step.jobId in st.jobs {
      JobsAreOk(st, step.jobId);
      LiveShape(st.jobs[step.jobId]);
      StopReasonMeans(st.jobs[step.jobId], step.at);
      CancelledMeans(st.jobs[step.jobId], step.at);
    }
    StopCommands(st, step);
  }

  lemma LiveShape(job: Job)
    requires JobOk(job)
    ensures job.status !in {Stopped, Succeeded, Failed, Cancelled, Queued} ==> job.assignment.Some?
    ensures job.status == Queued ==> job.assignment.None?
  {
    hide LogMatches, AssignmentOk;
  }

  // ---------------------------------------------------------------- An acknowledgement

  /** What a first acknowledgement does to the live job of its command. */
  predicate AnsweredAs(j: Job, k: Job, kind: CommandKind, ack: Ack, at: Time) {
    if kind == StartCommand && ack.succeeded then
      if j.status == Assigned
      then k == j.(containerId := ack.containerId, status := Starting, reason := StartAcknowledged, updatedAt := at,
                   events := j.events + [Event(j.id, Starting, StartAcknowledged, at)])
      else k == j.(containerId := ack.containerId)
    else if kind == StartCommand && j.status in {Assigned, Starting, Stopping} then
      k.containerId == j.containerId && EndedAs(j, k, Failed, ExecutionError, LaunchFailed, at)
    else if kind == StopCommand && !ack.succeeded && j.status == Stopping then
      k == j.(status := RunningJob, reason := StopFailed, updatedAt := at,
              events := j.events + [Event(j.id, RunningJob, StopFailed, at)])
    else k == j
  }

  /** Only the host of the command may answer, and only its first answer counts. It settles the command; a launch that
      worked names the container and starts an assigned job, a launch that failed ends the job, a stop that failed
      makes a stopping job run again, and a stop that worked leaves the end to the inventory. */
  lemma AckOutcome(st: State, step: Step)
    requires Valid(st) && step.AckStep?
    ensures var id := step.commandId;
      if id !in st.commands || st.commands[id].agentId != step.agentId then Outcome(st, step) == Err(NotFound)
      else if st.commands[id].status in {SucceededCommand, FailedCommand} then Outcome(st, step) == Ok(st)
      else
        var c, next := st.commands[id], Apply(st, step);
        && Outcome(st, step).Ok?
        && next.commands
           == st.commands[id := c.(status := if step.ack.succeeded then SucceededCommand else FailedCommand,
                                   completedAt := Some(step.at), leaseUntil := None)]
        && c.jobId in st.jobs && c.jobId in next.jobs && next.jobs == st.jobs[c.jobId := next.jobs[c.jobId]]
        && if st.jobs[c.jobId].status in {Stopped, Succeeded, Failed, Cancelled}
           then next.jobs[c.jobId] == st.jobs[c.jobId]
           else AnsweredAs(st.jobs[c.jobId], next.jobs[c.jobId], c.kind, step.ack, step.at)
  {
    hide Valid, JobsOk, CommandsOk, WellKeyed, ServersOk, Reaccounts, AckCommand, AckVersion, AnsweredAs, CommandOk;
    ValidParts(st);
    AckCommands(st, step);
    if step.commandId in st.commands {
      CommandIsOk(st, step.commandId);
      CommandNames(st, st.commands[step.commandId]);
      AckEffect(st, step);
      var c := st.commands[step.commandId];
      JobsAreOk(st, c.jobId);
      if st.jobs[c.jobId].status !in {Stopped, Succeeded, Failed, Cancelled} {
        AnswerMeans(st.jobs[c.jobId], c, step.ack, step.at);
      }
    }
  }

  lemma CommandIsOk(st: State, id: Id)
    requires CommandsOk(st.jobs, st.commands) && id in st.commands
    ensures CommandOk(st.jobs, st.commands, st.commands[id])
  {
    hide CommandOk, LaunchOk;
  }

  lemma CommandNames(st: State, c: Command)
    requires CommandOk(st.jobs, st.commands, c)
    ensures c.jobId in st.jobs && st.jobs[c.jobId].assignment.Some?
    ensures st.jobs[c.jobId].assignment.value.serverId == c.agentId
  {
  }

  lemma AckCommands(st: State, step: Step)
    requires step.AckStep?
    ensures var id := step.commandId;
      if id !in st.commands || st.commands[id].agentId != step.agentId then Outcome(st, step) == Err(NotFound)
      else if st.commands[id].status in {SucceededCommand, FailedCommand} then Outcome(st, step) == Ok(st)
      else
        && Outcome(st, step).Ok?
        && Apply(st, step).commands
           == st.commands[id := st.commands[id].(
                status := if step.ack.succeeded then SucceededCommand else FailedCommand,
                completedAt := Some(step.at), leaseUntil := None)]
  {
    hide Finish, AckJob, Transition;
    if step.commandId in st.commands && st.commands[step.commandId].jobId in st.jobs {
      var command := Acknowledge(st.commands[step.commandId], step.ack, step.at);
      FinishEffectOnJobs(st.(commands := st.commands[step.commandId := command]),
                         AckJob(st.jobs[command.jobId], command, step.ack, step.at).0, step.at);
    }
  }

  lemma AnswerMeans(job: Job, c: Command, ack: Ack, at: Time)
    requires job.status !in {Stopped, Succeeded, Failed, Cancelled} && job.assignment.Some?
    ensures AnsweredAs(job, AckVersion(job, c, ack, at), c.kind, ack, at)
  {
    hide Transition, Released;
    if c.kind == StartCommand && !ack.succeeded {
      EndingMeans(job.(termination := ExecutionError), Failed, LaunchFailed, at);
    }
    if job.status == Assigned {
      TransitionMeans(job.(containerId := ack.containerId), Starting, StartAcknowledged, at);
    }
    if job.status == Stopping { TransitionMeans(job, RunningJob, StopFailed, at); }
  }

  // ---------------------------------------------------------------- A dispatch

  /** The job may be dispatched to this place now: the place it has booked, inside the booked window, or any place for a
      queued job that asked for no time. */
  predicate MayGo(j: Job, p: Placement, kind: CommandKind, at: Time) {
    if j.assignment.Some? && j.assignment.value.state == PlannedState then
      var a := j.assignment.value;
      && j.status == Assigned && a.commandId == NO_ID && kind == StartCommand
      && a.start != ZERO_TIME && a.start <= at < a.end
      && p.serverId == a.serverId && p.gpus == a.gpus
    else j.status == Queued && j.neededAt == Blank && j.ttlSeconds == 0
  }

  predicate HostReady(host: Server, at: Time, timeout: int) {
    && host.status == Online && !host.drained && host.caps.Some? && host.caps.value.ready
    && at - host.lastHeartbeat <= timeout && host.inventoryReceived != ZERO_TIME
    && at - host.inventoryReceived <= timeout
  }

  /** Healthy, free for anybody, and able to do the work. */
  predicate GPUServes(request: Resources, g: GPU) {
    && g.healthy && g.state == Free && g.assignedJob == NO_ID && Capable(request, g.model)
    && (request.minVRAM <= 0 || g.memUsed + request.minVRAM <= g.memTotal)
  }

  predicate Room(j: Job, host: Server, wanted: seq<Id>) {
    && j.org == host.org != NO_ID && |wanted| == j.resources.gpuCount > 0
    && (forall u :: u in wanted ==> u != NO_ID && exists g :: g in host.gpus && g.uuid == u)
    && (forall i, k :: 0 <= i < k < |wanted| ==> wanted[i] != wanted[k])
    && (forall g :: g in host.gpus && g.uuid in wanted ==> GPUServes(j.resources, g))
  }

  lemma GoMeans(j: Job, p: Placement, c: Command, at: Time)
    ensures Dispatchable(j, p, c, at) <==> MayGo(j, p, c.kind, at)
  {
  }

  lemma ServesMeans(request: Resources, g: GPU)
    ensures request.Matches(g) <==> GPUServes(request, g)
  {
  }

  lemma RoomMeans(j: Job, host: Server, p: Placement)
    requires j.selector == map[]
    ensures PlacementMatches(j, host, p) <==> Room(j, host, p.gpus)
  {
    hide Resources.Matches, GPUServes;
    forall g ensures j.resources.Matches(g) <==> GPUServes(j.resources, g) {
      ServesMeans(j.resources, g);
    }
    if NO_ID in p.gpus && Room(j, host, p.gpus) {
      assert false;
    }
  }

  /** A dispatch succeeds exactly when the job may go there now, the host is ready and the addressee of a new command,
      and every GPU asked for is there and serves the job. It reserves those GPUs, stores the command, and launches
      the job. */
  lemma CommitOutcome(st: State, step: Step)
    requires Valid(st) && step.CommitStep?
    ensures var id, p, c, at := step.jobId, step.placement, step.command, step.at;
      if id !in st.jobs then Outcome(st, step) == Err(NotFound)
      else if !MayGo(st.jobs[id], p, c.kind, at) then Outcome(st, step) == Err(Conflict)
      else if p.serverId !in st.servers then Outcome(st, step) == Err(NotFound)
      else if !HostReady(st.servers[p.serverId], at, st.offlineAfter) || c.agentId != p.serverId || c.id in st.commands
              || !Room(st.jobs[id], st.servers[p.serverId], p.gpus) then Outcome(st, step) == Err(Conflict)
      else
        var next, host := Apply(st, step), st.servers[p.serverId];
        && Outcome(st, step).Ok? && next.commands == st.commands[c.id := c]
        && id in next.jobs && next.jobs == st.jobs[id := next.jobs[id]]
        && LaunchedAs(st.jobs[id], next.jobs[id], p, c.id, at)
        && p.serverId in next.servers && next.servers == st.servers[p.serverId := next.servers[p.serverId]]
        && next.servers[p.serverId] == host.(gpus := next.servers[p.serverId].gpus)
        && ReservedFor(host.gpus, next.servers[p.serverId].gpus, p.gpus, id)
  {
    hide Valid, PlacementMatches, Dispatchable, CommittedJob, ReserveGPUs, MayGo, Room, HostReady, LaunchedAs,
         ReservedFor, Server.Schedulable;
    if step.jobId in st.jobs {
      var j := st.jobs[step.jobId];
      JobsAreOk(st, step.jobId);
      NoSelector(j);
      GoMeans(j, step.placement, step.command, step.at);
      if MayGo(j, step.placement, step.command.kind, step.at) {
        CommitMeans(j, step.placement, step.command, step.at);
      }
      if step.placement.serverId in st.servers {
        var host := st.servers[step.placement.serverId];
        HostIsKeyed(st, step.placement.serverId);
        ReadyMeans(host, step.at, st.offlineAfter);
        RoomMeans(j, host, step.placement);
        ReserveMeans(host.gpus, step.placement.gpus, step.jobId);
      }
    }
  }

  lemma NoSelector(job: Job)
    requires JobOk(job)
    ensures job.selector == map[]
  {
  }

  lemma HostIsKeyed(st: State, s: Id)
    requires Valid(st) && s in st.servers
    ensures st.servers[s].id == s
  {
    hide JobsOk, GPUsUnshared, CommandsOk, Tenants, Exclusive, HeldIsNotFree, CalendarExclusive, ServerOk;
  }

  lemma ReadyMeans(host: Server, at: Time, timeout: int)
    ensures host.Schedulable(at, timeout) <==> HostReady(host, at, timeout)
  {
  }

  /** The wanted GPUs are now reserved for the job; nothing else changed. */
  predicate ReservedFor(before: seq<GPU>, after: seq<GPU>, wanted: seq<Id>, job: Id) {
    |after| == |before|
    && forall i :: 0 <= i < |before| ==>
         if before[i].uuid in wanted then after[i] == before[i].(state := Reserved, assignedJob := job)
         else after[i] == before[i]
  }

  lemma ReserveMeans(gpus: seq<GPU>, wanted: seq<Id>, job: Id)
    ensures ReservedFor(gpus, ReserveGPUs(gpus, wanted, job), wanted, job)
  {
  }

  /** A booked job keeps its place and window and is starting; an untimed one gets the place, without a window. */
  predicate LaunchedAs(j: Job, k: Job, p: Placement, command: Id, at: Time) {
    && k.id == j.id && k.termination == j.termination && k.policy == p.policy && k.updatedAt == at && k.assignment.Some?
    && k.assignment.value.commandId == command && k.assignment.value.state == ReservedState
    && if j.assignment.Some?
       then
         && k.status == Starting && k.reason == DueNow && k.events == j.events + [Event(j.id, Starting, DueNow, at)]
         && k.assignment.value == j.assignment.value.(commandId := command, state := ReservedState)
       else
         var a := k.assignment.value;
         && k.status == Assigned && k.reason == p.reason && k.events == j.events + [Event(j.id, Assigned, p.reason, at)]
         && a.start == ZERO_TIME && a.end == ZERO_TIME && a.serverId == p.serverId && a.gpus == p.gpus
         && a.assignedAt == at && a.releasedAt.None? && a.strategy == p.strategy && a.score == p.score
  }

  lemma CommitMeans(j: Job, p: Placement, c: Command, at: Time)
    requires JobOk(j) && MayGo(j, p, c.kind, at)
    ensures LaunchedAs(j, CommittedJob(j, p, c, at), p, c.id, at)
  {
    hide Transition, LogMatches, AssignmentOk;
    if PlannedJob(j) {
      var placed := j.(assignment := Some(j.assignment.value.(commandId := c.id, state := ReservedState)));
      TransitionMeans(placed, Starting, DueNow, at);
    } else {
      TransitionMeans(j, Assigned, p.reason, at);
    }
  }

  // ---------------------------------------------------------------- Training metadata

  /** A training update succeeds exactly on a training job at the expected revision, and asks for a checkpoint only of a
      running job. It takes the revision one further and keeps the resume data and the time of the warning. */
  lemma TrainingOutcome(st: State, id: Id, expected: int, next: Training, at: Time)
    ensures match UpdateTraining(st, id, expected, next, at)
      case Err(e) =>
        if id !in st.jobs then e == NotFound
        else
          var j := st.jobs[id];
          e == Conflict
          && (j.workload == InferenceWorkload || j.training.revision != expected
              || (next.checkpoint == CheckpointRequested && j.training.checkpoint != CheckpointRequested
                  && j.status != RunningJob))
      case Ok(after) =>
        && id in st.jobs && id in after.jobs && after == st.(jobs := st.jobs[id := after.jobs[id]])
        && var j, k := st.jobs[id], after.jobs[id];
           && j.workload == TrainingWorkload && j.training.revision == expected
           && (next.checkpoint == CheckpointRequested ==>
                 j.training.checkpoint == CheckpointRequested || j.status == RunningJob)
           && k == j.(training := k.training, updatedAt := at)
           && k.training == next.(revision := expected + 1, warningAt := j.training.warningAt,
                                  resumeURI := j.training.resumeURI, resumeFrom := j.training.resumeFrom)
  {
  }
}
