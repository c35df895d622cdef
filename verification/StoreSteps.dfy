/** The repository as a state machine: its steps, what callers guarantee, and the state invariant. */
module StoreSteps {
  import opened Domain
  import opened Accounting
  import opened Calendar
  import opened StoreSpec

  datatype Step =
    | UpsertStep(incoming: Server)
    | HeartbeatStep(agentId: Id, at: Time)
    | InventoryStep(agentId: Id, report: Report)
    | DrainStep(serverId: Id, drained: bool)
    | MarkStaleStep(before: Time)
    | CreateStep(job: Job)
    | StatusStep(jobId: Id, status: JobStatus, reason: Reason, at: Time)
    | ReplanStep(at: Time, answer: Result<seq<PlanEntry>>)
    | CommitStep(jobId: Id, placement: Placement, command: Command, at: Time)
    | StopStep(jobId: Id, command: Command, at: Time)
    | LeaseStep(agentId: Id, at: Time, lease: int, limit: int)
    | AckStep(agentId: Id, commandId: Id, ack: Ack, at: Time)
    | TrainingStep(jobId: Id, expected: int, next: Training, at: Time)
    | RestartStep

  ghost function Outcome(st: State, step: Step): Result<State> {
    match step
    case UpsertStep(incoming) => UpsertServer(st, incoming)
    case HeartbeatStep(agentId, at) => Heartbeat(st, agentId, at)
    case InventoryStep(agentId, report) => ReplaceInventory(st, agentId, report)
    case DrainStep(serverId, drained) => SetServerDrained(st, serverId, drained)
    case MarkStaleStep(before) => Ok(MarkStaleServers(st, before))
    case CreateStep(job) => CreateJob(st, job)
    case StatusStep(jobId, status, reason, at) => SetJobStatus(st, jobId, status, reason, at)
    case ReplanStep(at, answer) => ReplanReservations(st, at, answer)
    case CommitStep(jobId, placement, command, at) => CommitAssignment(st, jobId, placement, command, at)
    case StopStep(jobId, command, at) => RequestStop(st, jobId, command, at)
    case LeaseStep(agentId, at, lease, limit) => LeaseCommands(st, agentId, at, lease, limit)
    case AckStep(agentId, commandId, ack, at) => AckCommand(st, agentId, commandId, ack, at)
    case TrainingStep(jobId, expected, next, at) => UpdateTraining(st, jobId, expected, next, at)
    case RestartStep => Ok(Restart(st))
  }

  /** An operation that fails leaves the state as it was. */
  ghost function Apply(st: State, step: Step): State {
    match Outcome(st, step)
    case Ok(next) => next
    case Err(_) => st
  }

  // ---------------------------------------------------------------- What callers guarantee

  /** A report after wire validation: distinct, named GPUs with sane memory. */
  predicate SoundReport(report: Report) {
    DistinctUUIDs(report.gpus) && forall g :: g in report.gpus ==> SoundGPU(g)
  }

  /** A registration carries no inventory, and a machine seen for the first time brings a fresh identifier. */
  predicate SoundRegistration(st: State, incoming: Server) {
    && incoming.gpus == [] && incoming.containers == [] && incoming.inventoryReceived == ZERO_TIME
    && (incoming.machineId !in st.machines ==> incoming.id !in st.servers)
  }

  predicate Admitted(job: Job) {
    && job.id != NO_ID && job.status == Queued && job.assignment.None? && job.termination == NoTermination
    && job.resources.gpuCount >= 1 && job.selector == map[]
    && LogMatches(job)
  }

  predicate NewCommand(command: Command, kind: CommandKind, jobId: Id) {
    command.id != NO_ID && command.kind == kind && command.status == Pending && command.jobId == jobId
  }

  predicate Legal(st: State, step: Step) {
    match step
    case UpsertStep(incoming) => SoundRegistration(st, incoming)
    case InventoryStep(_, report) => SoundReport(report)
    case CreateStep(job) => Admitted(job)
    case StatusStep(_, status, _, _) => status == Failed || status == Assigned
    case CommitStep(jobId, _, command, _) => NewCommand(command, StartCommand, jobId)
    case StopStep(jobId, command, _) => NewCommand(command, StopCommand, jobId)
    case _ => true
  }

  // ---------------------------------------------------------------- The invariant

  /** The last event is the current status. */
  predicate LogMatches(job: Job) {
    |job.events| > 0
    && var last := job.events[|job.events| - 1];
       last.jobId == job.id && last.status == job.status && last.reason == job.reason
  }

  predicate AssignmentOk(job: Job, a: Assignment) {
    && NO_ID !in a.gpus && DistinctIds(a.gpus) && |a.gpus| == job.resources.gpuCount
    && a.Window() == job.RequestedWindow()
    && (a.state == ReleasedState <==> job.status.Terminal())
    && (a.releasedAt.Some? <==> a.state == ReleasedState)
    && (a.state == PlannedState ==> a.commandId == NO_ID && job.status == Assigned && a.Window().Valid())
    && (a.state == ReservedState || a.state == AllocatedState ==> a.commandId != NO_ID)
  }

  predicate JobOk(job: Job) {
    && LogMatches(job)
    && job.resources.gpuCount >= 1 && job.selector == map[]
    && (job.status == Queued ==> job.assignment.None?)
    && (job.assignment.None? ==> job.status == Queued || job.status.Terminal())
    && (job.assignment.Some? ==> AssignmentOk(job, job.assignment.value))
  }

  ghost predicate JobsOk(jobs: map<Id, Job>) {
    WellKeyed(jobs) && forall k :: k in jobs ==> JobOk(jobs[k])
  }

  predicate CommandOk(jobs: map<Id, Job>, commands: map<Id, Command>, c: Command) {
    && c.jobId in jobs && jobs[c.jobId].assignment.Some?
    && var a := jobs[c.jobId].assignment.value;
       && a.commandId != NO_ID && c.agentId == a.serverId
       && c.kind != NoCommand && c.status != NoStatus
       && (c.kind == StartCommand ==> a.commandId == c.id)
       && (c.kind == StopCommand ==> a.commandId in commands && commands[a.commandId].status != Pending)
  }

  /** A launched job points at its own START. */
  predicate LaunchOk(commands: map<Id, Command>, job: Job) {
    job.assignment.Some? && job.assignment.value.commandId != NO_ID ==>
      var id := job.assignment.value.commandId;
      id in commands && commands[id].kind == StartCommand && commands[id].jobId == job.id
  }

  ghost predicate CommandsOk(jobs: map<Id, Job>, commands: map<Id, Command>) {
    && (forall k :: k in commands ==> commands[k].id == k && k != NO_ID && CommandOk(jobs, commands, commands[k]))
    && (forall k :: k in jobs ==> LaunchOk(commands, jobs[k]))
  }

  predicate ServerOk(server: Server) {
    DistinctUUIDs(server.gpus) && forall g :: g in server.gpus ==> SoundGPU(g)
  }

  ghost predicate ServersOk(st: State) {
    && (forall k :: k in st.servers ==> st.servers[k].id == k && ServerOk(st.servers[k]))
    && (forall m :: m in st.machines ==> st.machines[m] in st.servers)
  }

  /** One physical GPU is part of one host's inventory. */
  ghost predicate GPUsUnshared(servers: map<Id, Server>) {
    forall s, t, g, k ::
      s in servers && t in servers && g in servers[s].gpus && k in servers[t].gpus && g.uuid == k.uuid ==> s == t
  }

  /** Every assignment is on a host of the job's own organisation. */
  predicate Tenant(servers: map<Id, Server>, job: Job) {
    job.assignment.Some? ==>
      job.assignment.value.serverId in servers && SameOrganization(job.org, servers[job.assignment.value.serverId].org)
  }

  ghost predicate Tenants(st: State) {
    forall k :: k in st.jobs ==> Tenant(st.servers, st.jobs[k])
  }

  ghost predicate GPUsAccounted(serverId: Id, gpus: seq<GPU>, jobs: map<Id, Job>) {
    forall g :: g in gpus && ReservedIn(serverId, jobs, g.uuid) ==> g.state != Free
  }

  /** No GPU held by a live dispatched job is ever free. */
  ghost predicate HeldIsNotFree(st: State) {
    forall s :: s in st.servers ==> GPUsAccounted(s, st.servers[s].gpus, st.jobs)
  }

  /** A live booking with a known window. */
  predicate Books(job: Job, serverId: Id, uuid: Id) {
    !job.status.Terminal() && job.assignment.Some?
    && job.assignment.value.serverId == serverId && uuid in job.assignment.value.gpus
    && job.assignment.value.Window().Valid()
  }

  ghost predicate CalendarExclusive(jobs: map<Id, Job>) {
    forall i, j, s, u :: i in jobs && j in jobs && i != j && Books(jobs[i], s, u) && Books(jobs[j], s, u) ==>
      !jobs[i].assignment.value.Window().Overlaps(jobs[j].assignment.value.Window())
  }

  ghost predicate Valid(st: State) {
    && JobsOk(st.jobs)
    && ServersOk(st)
    && GPUsUnshared(st.servers)
    && CommandsOk(st.jobs, st.commands)
    && Tenants(st)
    && Exclusive(st.jobs)
    && HeldIsNotFree(st)
    && CalendarExclusive(st.jobs)
  }

  // ---------------------------------------------------------------- How one job may change

  /** Outside planning and dispatch a job keeps its request and its place, its log only grows, and a terminal
      job keeps everything but training metadata. */
  predicate Evolves(j: Job, k: Job) {
    && SameRequest(j, k) && k.selector == j.selector
    && j.events <= k.events
    && (j.assignment.Some? <==> k.assignment.Some?)
    && (j.assignment.Some? ==>
          var a, b := j.assignment.value, k.assignment.value;
          a.serverId == b.serverId && a.gpus == b.gpus && a.commandId == b.commandId && a.start == b.start
            && a.end == b.end)
    && (j.status.Terminal() ==> k == j.(training := k.training, updatedAt := k.updatedAt))
  }

  /** A command keeps its identity; an acknowledged one no longer changes. */
  predicate CommandEvolves(c: Command, d: Command) {
    && d == c.(status := d.status, attempts := d.attempts, deliveredAt := d.deliveredAt,
               leaseUntil := d.leaseUntil, completedAt := d.completedAt)
    && (c.status != Pending ==> d.status != Pending)
    && (Acknowledged(c) ==> d == c)
    && d.status != NoStatus
  }

  predicate Launched(job: Job) {
    job.assignment.Some? && job.assignment.value.commandId != NO_ID
  }

  /** Planning and dispatch may also give an unlaunched live job a new place. */
  predicate Advances(j: Job, k: Job) {
    Evolves(j, k) || (!Launched(j) && !j.status.Terminal() && SameRequest(j, k) && k.selector == j.selector
                      && j.events <= k.events)
  }

  /** What every step keeps: jobs advance, commands and hosts stay, and hosts keep their owner. */
  ghost predicate Progress(st: State, next: State) {
    && (forall k :: k in st.jobs ==> k in next.jobs && Advances(st.jobs[k], next.jobs[k]))
    && (forall k :: k in st.commands ==> k in next.commands && CommandEvolves(st.commands[k], next.commands[k]))
    && (forall s :: s in st.servers ==> s in next.servers && next.servers[s].org == st.servers[s].org)
    && next.offlineAfter == st.offlineAfter
  }
}
