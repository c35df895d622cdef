/** Values shared by the control plane: time windows, GPUs, servers, jobs and commands.

  Identifiers are strings in the program; they are only compared for equality and order, so they
  are integers here and 0 is the empty string. Times are integer nanoseconds and 0 is the zero time. */
module Domain {

  type Id = int
  type Time = int

  const NO_ID: Id := 0
  const ZERO_TIME: Time := 0
  const SECOND := 1_000_000_000
  const MAX_TTL_SECONDS := 9_223_372_036

  datatype Option<+T> = None | Some(value: T)

  datatype Error = NotFound | Conflict | StaleInventory | InvalidInput | InsufficientGPU | NotStoppable | SaveFailed

  datatype Result<+T> = Ok(value: T) | Err(error: Error)

  /** Half-open interval: touching end points do not conflict. */
  datatype TimeWindow = TimeWindow(start: Time, end: Time) {
    predicate Valid() {
      start != ZERO_TIME && start < end
    }

    predicate Contains(at: Time) {
      Valid() && start <= at < end
    }

    predicate Overlaps(other: TimeWindow) {
      start < other.end && other.start < end
    }
  }

  // ---------------------------------------------------------------- GPUs and servers

  datatype GPUState = Free | Reserved | Allocated | OccupiedLegacy | OccupiedUnknown | Unhealthy

  datatype GPU = GPU(uuid: Id, model: Id, memTotal: int, memUsed: int, healthy: bool,
                     state: GPUState, assignedJob: Id) {
    function AvailableMemory(): int {
      if memTotal - memUsed < 0 then 0 else memTotal - memUsed
    }

    predicate Schedulable() {
      healthy && state == Free && assignedJob == NO_ID
    }
  }

  datatype ContainerState = Running | Paused | Restarting | Exited | Dead | OtherState
  datatype Origin = ManagedOrigin | LegacyOrigin | UnknownOrigin

  datatype Container = Container(id: Id, state: ContainerState, origin: Origin, jobId: Id,
                                 gpus: seq<Id>, exitCode: Option<int>)

  predicate Consumes(s: ContainerState) {
    s == Running || s == Paused || s == Restarting
  }

  datatype GPUProcess = GPUProcess(pid: int, gpu: Id, containerId: Id)

  /** What one observation of a host could read. Execution readiness is derived, never trusted. */
  datatype Capabilities = Capabilities(operational: bool, platformSupported: bool, docker: bool, nvml: bool,
                                       gpuInventory: bool, gpuCount: int, containerSupport: bool,
                                       dockerSupported: bool, ready: bool) {
    function Normalize(): Capabilities {
      this.(ready := operational && platformSupported && docker && nvml && gpuInventory && gpuCount != 0
                     && containerSupport && dockerSupported)
    }
  }

  datatype ServerStatus = Online | Offline | Draining

  datatype Server = Server(id: Id, machineId: Id, org: Id, caps: Option<Capabilities>, labels: map<Id, Id>,
                           status: ServerStatus, drained: bool, lastHeartbeat: Time, inventoryReceived: Time,
                           version: int, gpus: seq<GPU>, containers: seq<Container>) {
    /** Fresh connectivity and a complete recent inventory. */
    predicate Schedulable(now: Time, offlineAfter: int) {
      caps.Some? && caps.value.ready && status == Online && !drained && inventoryReceived != ZERO_TIME
      && now - lastHeartbeat <= offlineAfter && now - inventoryReceived <= offlineAfter
    }
  }

  const ZERO_SERVER := Server(NO_ID, NO_ID, NO_ID, None, map[], Offline, false, ZERO_TIME, ZERO_TIME, 0, [], [])

  datatype Report = Report(caps: Option<Capabilities>, sequence: int, observedAt: Time, receivedAt: Time,
                           gpus: seq<GPU>, containers: seq<Container>, processes: seq<GPUProcess>)

  // ---------------------------------------------------------------- Jobs

  datatype Profile = NoProfile | Auto | Named(name: Id)

  datatype Resources = Resources(profile: Profile, fp8: bool, models: seq<Id>, gpuModel: Id,
                                 gpuCount: int, minVRAM: int) {
    predicate CapabilityMatches(g: GPU) {
      if profile.Auto? && !fp8 then true
      else if !profile.NoProfile? || fp8 then g.model in models
      else gpuModel == NO_ID || g.model == gpuModel
    }

    predicate Matches(g: GPU) {
      g.Schedulable() && CapabilityMatches(g) && g.AvailableMemory() >= minVRAM
    }
  }

  datatype JobStatus = Queued | Assigned | Starting | RunningJob | Stopping | Stopped | Succeeded | Failed | Cancelled {
    predicate Terminal() {
      this in {Stopped, Succeeded, Failed, Cancelled}
    }
  }

  datatype Termination = NoTermination | Completed | TimeLimit | UserCancelled | ExecutionError | SystemError

  /** Human-readable reasons matter only for equality of two transitions. */
  datatype Reason =
    | Given(text: Id)
    | CancelledBeforePlacement | CancelledBeforeExecution | CancelledBeforeDelivery | StopRequested
    | StartAcknowledged | LaunchFailed | StopFailed | ObservedActive | ObservedStopped
    | ExitedOk | ExitedWith(code: int) | ExitedUnknown | MissingFromInventory | AbsentAfterStop | DueNow
    | LegacyWindow | WindowEnded | OrganizationDisabled | WaitingForWindow | HeldForWindow
    | ExpiredInQueue | WaitingForSafeGPU
    | Chosen(strategy: Strategy, serverId: Id, score: real, count: nat)

  datatype Event = Event(jobId: Id, status: JobStatus, reason: Reason, at: Time)

  datatype Strategy = FirstFit | BestFit | BinPack | Fragmentation

  datatype Lane = AutoEligible | Competitive
  datatype Decision = Decision(lane: Lane, score: int, evaluatedAt: Time)

  datatype Placement = Placement(serverId: Id, gpus: seq<Id>, strategy: Strategy, score: real,
                                 reason: Reason, policy: Decision)

  datatype ReservationState = PlannedState | ReservedState | AllocatedState | ReleasedState

  datatype Assignment = Assignment(start: Time, end: Time, serverId: Id, gpus: seq<Id>, commandId: Id,
                                   assignedAt: Time, state: ReservationState, releasedAt: Option<Time>,
                                   strategy: Strategy, score: real, reason: Reason) {
    function Window(): TimeWindow {
      TimeWindow(start, end)
    }
  }

  datatype CheckpointStatus = CheckpointNone | CheckpointRequested | CheckpointSaving | CheckpointAvailable
    | CheckpointFailed
  datatype ArtifactStatus = ArtifactNone | ArtifactSaving | ArtifactReady | ArtifactFailed
  datatype UploadKind = NoKind | CheckpointKind | ArtifactKind

  datatype Training = Training(checkpoint: CheckpointStatus, checkpointURI: Id, checkpointAt: Time, step: int,
                               warningAt: Time, artifact: ArtifactStatus, artifactURI: Id, artifactAt: Time,
                               resumeURI: Id, resumeFrom: Id,
                               revision: int, uploadId: Id, uploadKind: UploadKind, uploadStarted: Time)

  datatype NeededAt = Blank | Unparsable | Needed(at: Time)
  datatype Workload = TrainingWorkload | InferenceWorkload
  datatype Necessity = Necessity1 | Necessity2 | Necessity3 | Necessity4 | NecessityOther
  datatype Importance = Critical | VeryImportant | Important | NormalImportance | ImportanceOther

  datatype Job = Job(id: Id, org: Id, workload: Workload, necessity: Necessity, importance: Importance,
                     neededAt: NeededAt, ttlSeconds: int, resources: Resources, selector: map<Id, Id>,
                     createdAt: Time, updatedAt: Time, status: JobStatus, reason: Reason, termination: Termination,
                     assignment: Option<Assignment>, containerId: Id, lastObserved: Option<Time>,
                     policy: Decision, training: Training, events: seq<Event>) {
    /** The requested duration is the GPU allocation, not the container's uptime. */
    function RequestedWindow(): TimeWindow {
      if !neededAt.Needed? || ttlSeconds <= 0 || ttlSeconds > MAX_TTL_SECONDS then TimeWindow(ZERO_TIME, ZERO_TIME)
      else TimeWindow(neededAt.at, neededAt.at + ttlSeconds * SECOND)
    }

    /** Never execution in flight, nor a reservation whose start has arrived. */
    predicate Replannable(now: Time) {
      status == Queued
      || (status == Assigned && assignment.Some? && assignment.value.state == PlannedState
          && assignment.value.commandId == NO_ID && assignment.value.start > now)
    }
  }

  datatype PlanEntry = PlanEntry(jobId: Id, placement: Option<Placement>, policy: Decision, reason: Reason)

  // ---------------------------------------------------------------- Commands

  datatype CommandKind = NoCommand | StartCommand | StopCommand
  datatype CommandStatus = NoStatus | Pending | Delivered | SucceededCommand | FailedCommand

  datatype Command = Command(id: Id, agentId: Id, kind: CommandKind, status: CommandStatus, jobId: Id,
                             attempts: int, createdAt: Time, deliveredAt: Option<Time>, leaseUntil: Option<Time>,
                             completedAt: Option<Time>)

  const ZERO_COMMAND := Command(NO_ID, NO_ID, NoCommand, NoStatus, NO_ID, 0, ZERO_TIME, None, None, None)

  datatype Ack = Ack(succeeded: bool, containerId: Id)

  /** Two empty owners are never the same organisation. */
  predicate SameOrganization(jobOrg: Id, serverOrg: Id) {
    jobOrg != NO_ID && jobOrg == serverOrg
  }

  predicate DistinctIds(ids: seq<Id>) {
    forall i, j :: 0 <= i < j < |ids| ==> ids[i] != ids[j]
  }

  predicate DistinctUUIDs(gpus: seq<GPU>) {
    forall i, j :: 0 <= i < j < |gpus| ==> gpus[i].uuid != gpus[j].uuid
  }
}
