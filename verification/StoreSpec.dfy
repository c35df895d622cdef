/** What each repository operation does to the runtime state. Every operation runs under one lock, so it
  is one atomic step: a function from the state to the new state or an error that changes nothing. */
module StoreSpec {
  import opened Domain
  import opened Accounting
  import opened Calendar
  import Sorting

  datatype State = State(servers: map<Id, Server>, machines: map<Id, Id>, jobs: map<Id, Job>,
                         commands: map<Id, Command>, offlineAfter: int)

  /** A missing map entry reads as the zero value. */
  function ServerAt(st: State, id: Id): Server {
    if id in st.servers then st.servers[id] else ZERO_SERVER
  }

  function CommandAt(commands: map<Id, Command>, id: Id): Command {
    if id in commands then commands[id] else ZERO_COMMAND
  }

  // ---------------------------------------------------------------- Hosts

  function UpsertServer(st: State, incoming: Server): Result<State> {
    if incoming.machineId in st.machines then
      var id := st.machines[incoming.machineId];
      var existing := ServerAt(st, id);
      if existing.org != incoming.org || (incoming.org != NO_ID && incoming.id != existing.id) then Err(Conflict)
      else
        Ok(st.(servers := st.servers[id := existing.(
          caps := incoming.caps, labels := incoming.labels,
          status := if existing.drained then Draining else Online,
          inventoryReceived := ZERO_TIME, version := 0, lastHeartbeat := incoming.lastHeartbeat)]))
    else
      Ok(st.(machines := st.machines[incoming.machineId := incoming.id],
             servers := st.servers[incoming.id := incoming]))
  }

  function Heartbeat(st: State, agentId: Id, at: Time): Result<State> {
    if agentId !in st.servers then Err(NotFound)
    else
      var server := st.servers[agentId];
      var stale := server.status == Offline || at - server.lastHeartbeat > st.offlineAfter;
      Ok(st.(servers := st.servers[agentId := server.(
        inventoryReceived := if stale then ZERO_TIME else server.inventoryReceived,
        lastHeartbeat := at, status := if server.drained then Draining else Online)]))
  }

  function SetServerDrained(st: State, serverId: Id, drained: bool): Result<State> {
    if serverId !in st.servers then Err(NotFound)
    else
      var server := st.servers[serverId];
      Ok(st.(servers := st.servers[serverId := server.(drained := drained,
        status := if server.status == Offline then Offline else if drained then Draining else Online)]))
  }

  predicate Stale(server: Server, before: Time) {
    server.lastHeartbeat < before && server.status != Offline
  }

  function MarkStaleServers(st: State, before: Time): State {
    st.(servers := map id | id in st.servers ::
      if Stale(st.servers[id], before) then st.servers[id].(status := Offline) else st.servers[id])
  }

  /** After a restart every host must prove itself again with a new inventory. */
  function Restart(st: State): State {
    st.(servers := map id | id in st.servers :: st.servers[id].(status := Offline, inventoryReceived := ZERO_TIME))
  }

  // ---------------------------------------------------------------- Lifecycle

  function Transition(job: Job, status: JobStatus, reason: Reason, at: Time): Job {
    if job.status.Terminal() || (job.status == status && job.reason == reason) then job
    else job.(
      termination := if status == Succeeded then Completed
                     else if status == Failed && job.termination == NoTermination then SystemError
                     else if status == Cancelled && job.termination == NoTermination then UserCancelled
                     else job.termination,
      status := status, reason := reason, updatedAt := at,
      events := job.events + [Event(job.id, status, reason, at)])
  }

  function Released(job: Job, at: Time): Job {
    if job.assignment.None? then job
    else job.(assignment := Some(job.assignment.value.(state := ReleasedState, releasedAt := Some(at))))
  }

  /** Ending a reservation re-accounts its host with the containers last observed and no processes. */
  ghost function Release(st: State, job: Job, at: Time): State {
    if job.assignment.None? then st
    else
      var jobs := st.jobs[job.id := Released(job, at)];
      var sid := job.assignment.value.serverId;
      if sid !in st.servers then st.(jobs := jobs)
      else
        var server := st.servers[sid];
        st.(jobs := jobs, servers := st.servers[sid := server.(
          gpus := NormalizeGPUs(server.id, server.gpus, server.containers, [], jobs))])
  }

  function CreateJob(st: State, job: Job): Result<State> {
    if job.id in st.jobs then Err(Conflict) else Ok(st.(jobs := st.jobs[job.id := job]))
  }

  predicate StatusIgnored(job: Job, status: JobStatus) {
    || job.status.Terminal()
    || (status == Queued && job.status != Queued)
    || (status == Failed && job.status != Queued)
    || (status == Assigned && (job.status != Assigned || job.assignment.None?
                               || job.assignment.value.commandId != NO_ID))
  }

  ghost function SetJobStatus(st: State, id: Id, status: JobStatus, reason: Reason, at: Time): Result<State> {
    if id !in st.jobs then Err(NotFound)
    else if StatusIgnored(st.jobs[id], status) then Ok(st)
    else
      var job := Transition(st.jobs[id], status, reason, at);
      Ok(if status.Terminal() then Finish(st, job, at) else st.(jobs := st.jobs[id := job]))
  }

  /** Store a terminal job and end its reservation in the same step. */
  ghost function Finish(st: State, job: Job, at: Time): State {
    Release(st.(jobs := st.jobs[job.id := job]), job, at)
  }

  function StopTermination(job: Job, at: Time): Termination {
    if job.termination != NoTermination then job.termination
    else if job.RequestedWindow().Valid() && at >= job.RequestedWindow().end then TimeLimit
    else UserCancelled
  }

  ghost function RequestStop(st: State, jobId: Id, command: Command, at: Time): Result<State> {
    if jobId !in st.jobs then Err(NotFound)
    else if st.jobs[jobId].status.Terminal() || st.jobs[jobId].status == Stopping then Ok(st)
    else
      var job := st.jobs[jobId].(termination := StopTermination(st.jobs[jobId], at));
      if job.status == Queued then
        Ok(st.(jobs := st.jobs[jobId := Transition(job, Cancelled, CancelledBeforePlacement, at)]))
      else if job.assignment.None? then Err(NotStoppable)
      else if job.assignment.value.commandId == NO_ID then
        Ok(Finish(st, Transition(job, Cancelled, CancelledBeforeExecution, at), at))
      else
        var start := CommandAt(st.commands, job.assignment.value.commandId);
        if start.status == Pending then
          Ok(Finish(st.(commands := st.commands[start.id := start.(status := FailedCommand, completedAt := Some(at))]),
                    Transition(job, Cancelled, CancelledBeforeDelivery, at), at))
        else if command.id in st.commands then Err(Conflict)
        else
          Ok(st.(commands := st.commands[command.id := command.(agentId := job.assignment.value.serverId)],
                 jobs := st.jobs[jobId := Transition(job, Stopping, StopRequested, at)]))
  }

  // ---------------------------------------------------------------- Inventory

  /** The managed container reported for a job: the first one, unless a later one is active and it is not. */
  function Observed(cs: seq<Container>, jobId: Id): Option<Container> {
    if cs == [] then None
    else
      var previous, c := Observed(cs[..|cs| - 1], jobId), cs[|cs| - 1];
      if c.origin == ManagedOrigin && c.jobId == jobId && jobId != NO_ID
         && (previous.None? || (!Consumes(previous.value.state) && Consumes(c.state))) then Some(c)
      else previous
  }

  /** An acknowledged STOP whose completion the observation does not precede. */
  predicate StopConfirms(command: Command, job: Job, observedAt: Time) {
    command.kind == StopCommand && command.status == SucceededCommand && command.completedAt.Some?
    && observedAt >= command.completedAt.value && command.jobId == job.id
    && job.assignment.Some? && command.agentId == job.assignment.value.serverId
  }

  ghost predicate StopConfirmed(commands: map<Id, Command>, job: Job, observedAt: Time) {
    job.status == Stopping && job.assignment.Some?
    && exists id :: id in commands && StopConfirms(commands[id], job, observedAt)
  }

  predicate StartConfirmed(start: Command, observedAt: Time) {
    start.status == SucceededCommand && start.completedAt.Some? && observedAt >= start.completedAt.value
  }

  function ExitStatus(job: Job, c: Container): JobStatus {
    if job.status == Stopping || job.termination == TimeLimit then Stopped
    else if c.exitCode == Some(0) then Succeeded
    else Failed
  }

  function ExitReason(job: Job, c: Container): Reason {
    if job.status == Stopping || job.termination == TimeLimit then ObservedStopped
    else if c.exitCode == Some(0) then ExitedOk
    else if c.exitCode.Some? then ExitedWith(c.exitCode.value)
    else ExitedUnknown
  }

  ghost predicate Absent(commands: map<Id, Command>, job: Job, observedAt: Time) {
    job.assignment.Some? && job.status in {RunningJob, Stopping, Starting}
    && (StartConfirmed(CommandAt(commands, job.assignment.value.commandId), observedAt)
        || StopConfirmed(commands, job, observedAt))
  }

  /** One job against a complete inventory of its host. */
  ghost function ReconcileJob(job: Job, serverId: Id, report: Report, commands: map<Id, Command>): Job {
    if job.assignment.None? || job.assignment.value.serverId != serverId || job.status.Terminal()
       || job.assignment.value.commandId == NO_ID then job
    else
      var observed := Observed(report.containers, job.id);
      if observed.Some? then
        var c := observed.value;
        var seen := job.(containerId := c.id, lastObserved := Some(report.observedAt));
        if Consumes(c.state) then
          var active := seen.(assignment := Some(seen.assignment.value.(state := AllocatedState)));
          if job.status == Assigned || job.status == Starting
          then Transition(active, RunningJob, ObservedActive, report.receivedAt) else active
        else if c.state == Exited || c.state == Dead then
          var status, reason := ExitStatus(seen, c), ExitReason(seen, c);
          var failed := if status == Failed then seen.(termination := ExecutionError) else seen;
          Released(Transition(failed, status, reason, report.receivedAt), report.receivedAt)
        else seen
      else if Absent(commands, job, report.observedAt) then
        var ended := if job.status == Stopping then Transition(job, Stopped, AbsentAfterStop, report.receivedAt)
                     else Transition(job, Failed, MissingFromInventory, report.receivedAt);
        Released(ended, report.receivedAt)
      else job
  }

  ghost function Reconcile(jobs: map<Id, Job>, serverId: Id, report: Report, commands: map<Id, Command>): map<Id, Job> {
    map id | id in jobs :: ReconcileJob(jobs[id], serverId, report, commands)
  }

  /** A GPU of the report is already part of another host. */
  ghost predicate ForeignGPU(st: State, agentId: Id, report: Report) {
    exists id, g, k :: id in st.servers && id != agentId && g in report.gpus && k in st.servers[id].gpus
      && g.uuid == k.uuid
  }

  predicate GPUValid(report: Report) {
    report.caps.None? || report.caps.value.gpuInventory
  }

  predicate DockerValid(report: Report) {
    report.caps.None? || report.caps.value.docker
  }

  predicate Complete(report: Report) {
    GPUValid(report) && DockerValid(report)
  }

  function Stamped(report: Report): Report {
    if report.receivedAt == ZERO_TIME then report.(receivedAt := report.observedAt) else report
  }

  ghost function ReplaceInventory(st: State, agentId: Id, incoming: Report): Result<State> {
    if agentId !in st.servers then Err(NotFound)
    else if incoming.sequence <= st.servers[agentId].version then Err(StaleInventory)
    else if ForeignGPU(st, agentId, incoming) then Err(Conflict)
    else
      var report := Stamped(incoming);
      var server := st.servers[agentId];
      var containers := if DockerValid(report) then report.containers else server.containers;
      var jobs := if Complete(report) then Reconcile(st.jobs, agentId, report, st.commands) else st.jobs;
      Ok(st.(jobs := jobs, servers := st.servers[agentId := server.(
        version := report.sequence, lastHeartbeat := report.receivedAt,
        caps := if report.caps.Some? then Some(report.caps.value.Normalize()) else server.caps,
        inventoryReceived := if Complete(report) then report.receivedAt else ZERO_TIME,
        containers := containers,
        gpus := if GPUValid(report) then NormalizeGPUs(agentId, report.gpus, containers, report.processes, jobs)
                else server.gpus,
        status := if server.drained then Draining else Online)]))
  }

  // ---------------------------------------------------------------- Reservation

  /** `found == len(wanted)` of the two placement checks: every wanted GPU is present and matches. */
  predicate AllMatch(job: Job, gpus: seq<GPU>, wanted: seq<Id>) {
    && (forall u :: u in wanted ==> exists g :: g in gpus && g.uuid == u)
    && (forall g :: g in gpus && g.uuid in wanted ==> job.resources.Matches(g))
  }

  predicate SelectorHolds(job: Job, server: Server) {
    forall k :: k in job.selector ==>
      job.selector[k] == (if k in server.labels then server.labels[k] else NO_ID)
  }

  predicate PlacementMatches(job: Job, server: Server, p: Placement) {
    && SameOrganization(job.org, server.org)
    && job.resources.gpuCount > 0 && |p.gpus| == job.resources.gpuCount
    && NO_ID !in p.gpus && DistinctIds(p.gpus)
    && AllMatch(job, server.gpus, p.gpus)
    && SelectorHolds(job, server)
  }

  predicate PlannedJob(job: Job) {
    job.assignment.Some? && job.assignment.value.state == PlannedState
  }

  predicate Dispatchable(job: Job, placement: Placement, command: Command, at: Time) {
    if PlannedJob(job) then
      var a := job.assignment.value;
      job.status == Assigned && a.commandId == NO_ID && a.Window().Contains(at)
      && a.serverId == placement.serverId && a.gpus == placement.gpus && command.kind == StartCommand
    else
      job.status == Queued && job.neededAt == Blank && job.ttlSeconds == 0
  }

  function ReserveGPUs(gpus: seq<GPU>, wanted: seq<Id>, jobId: Id): (r: seq<GPU>)
    ensures |r| == |gpus|
    ensures forall i :: 0 <= i < |r| ==>
      r[i] == if gpus[i].uuid in wanted then gpus[i].(state := Reserved, assignedJob := jobId) else gpus[i]
  {
    seq(|gpus|, i requires 0 <= i < |gpus| =>
      if gpus[i].uuid in wanted then gpus[i].(state := Reserved, assignedJob := jobId) else gpus[i])
  }

  function CommittedJob(job: Job, placement: Placement, command: Command, at: Time): Job {
    var dispatched :=
      if PlannedJob(job) then
        Transition(job.(assignment := Some(job.assignment.value.(commandId := command.id, state := ReservedState))),
                   Starting, DueNow, at)
      else
        Transition(job, Assigned, placement.reason, at).(assignment := Some(
          Assignment(ZERO_TIME, ZERO_TIME, placement.serverId, placement.gpus, command.id, at, ReservedState, None,
                     placement.strategy, placement.score, placement.reason)));
    dispatched.(policy := placement.policy, updatedAt := at)
  }

  function CommitAssignment(st: State, jobId: Id, placement: Placement, command: Command, at: Time): Result<State> {
    if jobId !in st.jobs then Err(NotFound)
    else
      var job := st.jobs[jobId];
      if !Dispatchable(job, placement, command, at) then Err(Conflict)
      else if placement.serverId !in st.servers then Err(NotFound)
      else
        var server := st.servers[placement.serverId];
        if !server.Schedulable(at, st.offlineAfter) || command.agentId != server.id
           || command.id in st.commands || !PlacementMatches(job, server, placement) then Err(Conflict)
        else
          Ok(st.(servers := st.servers[server.id := server.(gpus := ReserveGPUs(server.gpus, placement.gpus, jobId))],
                 jobs := st.jobs[job.id := CommittedJob(job, placement, command, at)],
                 commands := st.commands[command.id := command]))
  }

  // ---------------------------------------------------------------- Replanning

  predicate JobIdBefore(a: Job, b: Job) { a.id < b.id }
  predicate ServerIdBefore(a: Server, b: Server) { a.id < b.id }

  ghost function SnapshotJobs(st: State): seq<Job> {
    Sorting.Sort(JobIdBefore, Sorting.Elements(st.jobs.Values))
  }

  ghost function SnapshotServers(st: State): seq<Server> {
    Sorting.Sort(ServerIdBefore, Sorting.Elements(st.servers.Values))
  }

  /** Every entry names a different job that may still be replanned. */
  predicate Claimable(st: State, at: Time, plans: seq<PlanEntry>) {
    && (forall e :: e in plans ==> e.jobId in st.jobs && st.jobs[e.jobId].Replannable(at))
    && (forall i, j :: 0 <= i < j < |plans| ==> plans[i].jobId != plans[j].jobId)
  }

  predicate Planned(plans: seq<PlanEntry>, id: Id) {
    exists e :: e in plans && e.jobId == id
  }

  function NotPlanned(jobs: seq<Job>, plans: seq<PlanEntry>): seq<Job> {
    Sorting.Filter((j: Job) => !Planned(plans, j.id), jobs)
  }

  datatype Batch = Batch(changed: map<Id, Job>, bookings: seq<Job>, count: nat)

  predicate PlacementOpen(st: State, job: Job, p: Placement, servers: seq<Server>, bookings: seq<Job>, at: Time) {
    exists server :: server in CalendarServers(job, servers, bookings, at, st.offlineAfter)
      && server.id == p.serverId && server.Schedulable(at, st.offlineAfter) && PlacementMatches(job, server, p)
  }

  predicate SamePlace(previous: Option<Assignment>, p: Placement) {
    previous.Some? && previous.value.serverId == p.serverId && previous.value.gpus == p.gpus
  }

  /** The job after one accepted entry. */
  function PlacedJob(job: Job, entry: PlanEntry, at: Time): Job {
    var cleared := job.(assignment := None, policy := entry.policy);
    match entry.placement
    case None => Transition(cleared, Queued, entry.reason, at)
    case Some(p) =>
      var window := job.RequestedWindow();
      var since := if SamePlace(job.assignment, p) then job.assignment.value.assignedAt else at;
      Transition(cleared.(assignment := Some(Assignment(window.start, window.end, p.serverId, p.gpus, NO_ID, since,
                                                      PlannedState, None, p.strategy, p.score, entry.reason))),
                 Assigned, entry.reason, at)
  }

  predicate EntryValid(st: State, at: Time, entry: PlanEntry, servers: seq<Server>, bookings: seq<Job>)
    requires entry.jobId in st.jobs
  {
    var job := st.jobs[entry.jobId].(assignment := None, policy := entry.policy);
    entry.placement.Some? ==>
      job.RequestedWindow().Valid() && at < job.RequestedWindow().end
      && PlacementOpen(st, job, entry.placement.value, servers, bookings, at)
  }

  function PlaceAll(st: State, at: Time, plans: seq<PlanEntry>, servers: seq<Server>, batch: Batch): Result<Batch>
    requires forall e :: e in plans ==> e.jobId in st.jobs
    decreases |plans|
  {
    if plans == [] then Ok(batch)
    else
      var entry := plans[0];
      if !EntryValid(st, at, entry, servers, batch.bookings) then Err(Conflict)
      else
        var job := st.jobs[entry.jobId];
        var placed := PlacedJob(job, entry, at);
        PlaceAll(st, at, plans[1..], servers, Batch(
          batch.changed[entry.jobId := placed],
          if entry.placement.Some? then batch.bookings + [placed] else batch.bookings,
          if entry.placement.Some? && !SamePlace(job.assignment, entry.placement.value) then batch.count + 1
            else batch.count))
  }

  ghost function Replan(st: State, at: Time, plans: seq<PlanEntry>): Result<Batch> {
    if !Claimable(st, at, plans) then Err(Conflict)
    else PlaceAll(st, at, plans, SnapshotServers(st), Batch(map[], NotPlanned(SnapshotJobs(st), plans), 0))
  }

  /** The planner's answer is any list of entries, or an error. */
  ghost function ReplanReservations(st: State, at: Time, answer: Result<seq<PlanEntry>>): Result<State> {
    match answer
    case Err(e) => Err(e)
    case Ok(plans) =>
      match Replan(st, at, plans)
      case Err(e) => Err(e)
      case Ok(batch) => Ok(st.(jobs := st.jobs + batch.changed))
  }

  // ---------------------------------------------------------------- Commands

  predicate Owned(job: Job, g: GPU) {
    g.healthy && g.assignedJob == job.id && (g.state == Reserved || g.state == Allocated)
  }

  predicate StartDeliverable(st: State, command: Command, now: Time) {
    var server := ServerAt(st, command.agentId);
    server.Schedulable(now, st.offlineAfter) && command.jobId in st.jobs
    && var job := st.jobs[command.jobId];
       !job.status.Terminal() && job.assignment.Some? && job.assignment.value.commandId == command.id
       && SameOrganization(job.org, server.org)
       && var a := job.assignment.value;
          (a.Window().Valid() ==> a.Window().Contains(now))
          && (forall u :: u in a.gpus ==> exists g :: g in server.gpus && g.uuid == u)
          && (forall g :: g in server.gpus && g.uuid in a.gpus ==> Owned(job, g))
  }

  /** STOP waits for a START that may still take effect; once the window ended it no longer can. */
  predicate StopDeliverable(st: State, command: Command, now: Time) {
    command.jobId in st.jobs && st.jobs[command.jobId].assignment.Some? ==>
      var a := st.jobs[command.jobId].assignment.value;
      var start := CommandAt(st.commands, a.commandId);
      var expired := a.Window().Valid() && now >= a.end;
      !(start.status == Pending || (start.status == Delivered && !expired))
  }

  predicate Leasable(st: State, agentId: Id, command: Command, now: Time) {
    && command.agentId == agentId
    && (command.kind == StartCommand ==> StartDeliverable(st, command, now))
    && (command.kind == StopCommand ==> StopDeliverable(st, command, now))
    && (command.status == Pending
        || (command.status == Delivered && command.leaseUntil.Some? && command.leaseUntil.value < now))
  }

  predicate CommandBefore(a: Command, b: Command) {
    if a.createdAt == b.createdAt then a.id < b.id else a.createdAt < b.createdAt
  }

  ghost function LeasableCommands(st: State, agentId: Id, now: Time): set<Command> {
    set id | id in st.commands && Leasable(st, agentId, st.commands[id], now) :: st.commands[id]
  }

  ghost function LeaseBatch(st: State, agentId: Id, now: Time, limit: int): seq<Command> {
    var sorted := Sorting.Sort(CommandBefore, Sorting.Elements(LeasableCommands(st, agentId, now)));
    var n := if limit <= 0 then 10 else limit;
    if |sorted| > n then sorted[..n] else sorted
  }

  function Deliver(command: Command, now: Time, lease: int): Command {
    command.(status := Delivered, attempts := command.attempts + 1, deliveredAt := Some(now),
             leaseUntil := Some(now + lease))
  }

  ghost function LeaseCommands(st: State, agentId: Id, now: Time, lease: int, limit: int): Result<State> {
    if agentId !in st.servers then Err(NotFound)
    else
      var batch := LeaseBatch(st, agentId, now, limit);
      Ok(st.(commands := map id | id in st.commands ::
        if st.commands[id] in batch then Deliver(st.commands[id], now, lease) else st.commands[id]))
  }

  /** The job after the first acknowledgement of one of its commands, and whether its reservation ends. */
  function AckJob(job: Job, command: Command, ack: Ack, at: Time): (Job, bool) {
    match command.kind
    case StartCommand =>
      if ack.succeeded then
        var started := job.(containerId := ack.containerId);
        (if job.status == Assigned then Transition(started, Starting, StartAcknowledged, at) else started, false)
      else if job.status in {Assigned, Starting, Stopping} then
        (Transition(job.(termination := ExecutionError), Failed, LaunchFailed, at), true)
      else (job, false)
    case StopCommand =>
      (if !ack.succeeded && job.status == Stopping then Transition(job, RunningJob, StopFailed, at) else job, false)
    case NoCommand => (job, false)
  }

  predicate AckApplies(st: State, command: Command) {
    command.jobId in st.jobs && !st.jobs[command.jobId].status.Terminal() && st.jobs[command.jobId].assignment.Some?
    && st.jobs[command.jobId].assignment.value.serverId == command.agentId
  }

  ghost function ApplyAck(st: State, command: Command, ack: Ack, at: Time): State {
    if !AckApplies(st, command) then st
    else
      var (job, ends) := AckJob(st.jobs[command.jobId], command, ack, at);
      if ends then Finish(st, job, at) else st.(jobs := st.jobs[job.id := job])
  }

  predicate Acknowledged(command: Command) {
    command.status == SucceededCommand || command.status == FailedCommand
  }

  function Acknowledge(command: Command, ack: Ack, at: Time): Command {
    command.(completedAt := Some(at), leaseUntil := None,
             status := if ack.succeeded then SucceededCommand else FailedCommand)
  }

  ghost function AckCommand(st: State, agentId: Id, commandId: Id, ack: Ack, at: Time): Result<State> {
    if commandId !in st.commands || st.commands[commandId].agentId != agentId then Err(NotFound)
    else if Acknowledged(st.commands[commandId]) then Ok(st)
    else
      var command := Acknowledge(st.commands[commandId], ack, at);
      Ok(ApplyAck(st.(commands := st.commands[commandId := command]), command, ack, at))
  }

  // ---------------------------------------------------------------- Training metadata

  predicate TrainingConflict(job: Job, expected: int, next: Training) {
    || job.workload != TrainingWorkload
    || job.training.revision != expected
    || (next.checkpoint == CheckpointRequested && job.training.checkpoint != CheckpointRequested
        && job.status != RunningJob)
  }

  function NextTraining(current: Training, expected: int, next: Training): Training {
    next.(resumeURI := current.resumeURI, resumeFrom := current.resumeFrom, warningAt := current.warningAt,
          revision := expected + 1)
  }

  function UpdateTraining(st: State, id: Id, expected: int, next: Training, at: Time): Result<State> {
    if id !in st.jobs then Err(NotFound)
    else if TrainingConflict(st.jobs[id], expected, next) then Err(Conflict)
    else Ok(st.(jobs := st.jobs[id := st.jobs[id].(
           training := NextTraining(st.jobs[id].training, expected, next), updatedAt := at)]))
  }
}
