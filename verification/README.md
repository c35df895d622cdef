# GPU reservation store, planner and command protocol: a proved model

This project models the control plane that shares GPU hosts between organisations, and the Agent on each host.

- **Reservation store.** Four maps (hosts, machines, jobs, commands) behind one mutex, so each repository method is one
  atomic step. `StoreSpec` says what each step does, `StoreSteps` states the invariant and what callers guarantee,
  `StoreInvariant` and `ReplanInvariant` show that every step keeps it, `StoreRuns`, `Occupancy`, `CommandProtocol`,
  `LeaseFairness`, `HostReadiness` and `Terminations` draw the consequences for whole runs: any number of steps, in any
  order. `StepEffects` lists what the steps that end or re-word a job leave behind. `StepOutcomes`, `InventoryOutcomes`,
  `ReplanOutcomes` and `ReleaseOutcomes` say, in the fields of the records alone, when each step succeeds and what it
  leaves, and `AccountingOutcomes` the same of the state of a GPU. `Scenario`, `UntimedCommit` and `ReplanMoves` are
  concrete runs that show where a guarantee ends. `RepositoryLoops` and `MemoryStore` hold the class and its loops; every
  method is proved to perform its step. `Durable` wraps it in transactions and adds crashes.
- **Two levels of ownership.** A calendar booking (PLANNED) leaves physical GPU state alone; dispatch makes it RESERVED,
  inventory ALLOCATED, the end of the job RELEASED. `Accounting` derives physical state from partial observations,
  `Calendar` projects it into a job's window.
- **Planner.** `Policy` orders the queue, `Scheduler` places one job, `Planner` books one job after another, and the store
  validates the result again under its lock. `PlanOutcomes` says whom a plan decides about, in which order, and which place
  it picks. `PlannerAgreement`, `PlannerFairness`, `PlannerTenancy` and `PlannerIdempotence` compare planner with store and
  one plan with another. `Sweep` and `ControlPlane` are the execution pass and the scheduling cycle, `SweepOutcomes` the
  steps of one turn.
- **Publication of training outputs.** `Publication` lets uploaders, recovery and warnings act on any version of the job
  they once read; only a compare-and-swap on the revision joins them. `TrainingFrame` and `PublicationRuns` place the
  protocol inside the store's runs; `PublicationOutcomes` says when each actor writes and what.
- **Agent.** `AgentProtocol` validates reports, `AgentHost` is observation, check and launch on one host (`AgentOutcomes` in
  the fields of the observation), `AgentRunner` the durable command loop.

## How to read the model

A step that fails leaves the state as it was. Callers guarantee what the application establishes: reports passed wire
validation (`AgentProtocol.AcceptedReportsAreSound`), registrations carry no inventory and bring a fresh host identifier for a
new machine, admitted jobs ask for at least one GPU and carry no server selector
(`internal/application/allocation.go:74-76`), a command is created for the job it names under a new identifier, and in runs
`SetJobStatus` is called with FAILED or ASSIGNED only (`internal/application/planning.go:96` and `:130`). Planner and store use
the same off-line timeout (`cmd/aiwm-server/main.go:52` and `:69`). Times, command identifiers, call-back answers, save
outcomes, hardware readings and object-store answers are parameters and therefore arbitrary.

## What the proofs found

Paths here are relative to `aiwm-docker-control-plane/internal/`.

- Acknowledge after save (`agent/runner.go:271-282`). The loop is written so that a result is persisted before its
  acknowledgement. `remember` evicts the oldest entries after inserting the new one, so with a full history and a clock that
  has not passed the stored results it may evict the very result it stores; the command is then acknowledged and can run again
  (`AgentRunner.ForgottenRunsAgain`). `AgentRunner.AckIsDurableExactly` gives the exact condition, which a caller can read off
  the history before the call; a clock ahead of every stored result meets it (`AgentRunner.LaterHasRoom`).
- Stop after a failed save (`agent/runner.go:264-282`). The check and the work it guards take the lock separately, so a save
  that fails in another loop between them lets one more execution or acknowledgement through
  (`AgentRunner.OneMayAlreadyBePastTheCheck`). `AgentRunner.FailureStopsExactly` gives the exact condition, which reads only
  where the loop stands and what is stored: nothing more happens before a restart if and only if no command is past its check.
- Planning twice (`application/planning.go:27-61`). A second planner run at the same instant changes nothing as long as every
  placed window starts later. A placement whose window has begun is fixed in the second run and is then counted before jobs of
  a higher rank, so another job may move (`ReplanMoves.BegunWindowMovesAnother`).
- Untimed commits (`store/memory/store.go:308-356`). A commit without a window obeys physical exclusivity only and may take a
  GPU inside another job's booked window; that job then waits (`UntimedCommit.UntimedCommitTakesBookedGPU`).
- Managed label. The inventory compares the label ignoring case (`agent/inventory.go:204`), the simulated runtime exactly
  (`simulator/agent.go:96`). A foreign container labelled in another case for the same job is ignored by the check and
  unknown to the runtime, so a launch can share its GPU (`AgentHost.ImpostorSharesGPU`); `AgentHost.AloneExactly` says exactly
  when it does.
- The publication deadline does not need a perfectly monotone clock: it is enough that no repository step is applied thirty
  seconds or more after it read the clock, because the STOP grace absorbs the difference (`Publication.Prompt`).

## Model

| member | source | states |
|---|---|---|
| `Accounting.FreeExactly` | AIWM-Docker-GPU-Scheduler-with-Agent/aiwm-docker-control-plane/internal/store/memory/accounting.go:44-67 | a GPU is FREE exactly when it is healthy, no active container is granted it, no process runs on it, it was not reported unknown, and no live dispatched job holds it |
| `Accounting.ReaccountingKeepsObservations` | AIWM-Docker-GPU-Scheduler-with-Agent/aiwm-docker-control-plane/internal/store/memory/lifecycle.go:76-91 | re-accounting without a process list, as a release does, never frees a GPU that was observed busy, whichever jobs held it before and after |
| `Accounting.OwnersAreUnique` | AIWM-Docker-GPU-Scheduler-with-Agent/aiwm-docker-control-plane/internal/store/memory/accounting.go:14-38 | an ALLOCATED or RESERVED GPU names the one job that owns it, so map iteration order does not matter |
| `Accounting.OwnedExactly` | AIWM-Docker-GPU-Scheduler-with-Agent/aiwm-docker-control-plane/internal/store/memory/accounting.go:44-67 | a held GPU is accounted to its holder exactly when it is healthy and nobody else is seen on it |
| `AccountingOutcomes.StateExactly` | AIWM-Docker-GPU-Scheduler-with-Agent/aiwm-docker-control-plane/internal/store/memory/accounting.go:9-69 | the accounted state of a GPU and its owner in every case, first reason first: unhealthy, a foreign container, containers of two jobs or a process nobody explains, one job's container, reported in unknown use, reserved, free |
| `Accounting.GrantsAreClassified` | AIWM-Docker-GPU-Scheduler-with-Agent/aiwm-docker-control-plane/internal/store/memory/accounting.go:22-38 | every active grant is either recognised as the control plane's own or counted as legacy |
| `Accounting.CollectReservations` | AIWM-Docker-GPU-Scheduler-with-Agent/aiwm-docker-control-plane/internal/store/memory/accounting.go:14-20 | the reservation map holds exactly the GPUs held by live dispatched jobs of the host, each with a holder |
| `Accounting.CollectGrants` | AIWM-Docker-GPU-Scheduler-with-Agent/aiwm-docker-control-plane/internal/store/memory/accounting.go:22-38 | legacy, clashing and managed grants, exactly |
| `Accounting.NormalizeGPUState` | AIWM-Docker-GPU-Scheduler-with-Agent/aiwm-docker-control-plane/internal/store/memory/accounting.go:9-69 | the accounting loops compute the normal form of every GPU for any job map in which no GPU is held twice |
| `Calendar.OpenExactly` | AIWM-Docker-GPU-Scheduler-with-Agent/aiwm-docker-control-plane/internal/domain/reservation.go:45-90 | a projected GPU satisfies a request exactly when it is healthy and capable, every live booking of it ends by the window's start or begins at its end or later, and it is free now, or the window is still to come and the job it is accounted to is booked on it until the window's start at the latest |
| `Calendar.CalendarReads` | AIWM-Docker-GPU-Scheduler-with-Agent/aiwm-docker-control-plane/internal/domain/reservation.go:48-90 | the projection reads of a booking only its identity, liveness, place, window and release |
| `Calendar.ProjectOne` | AIWM-Docker-GPU-Scheduler-with-Agent/aiwm-docker-control-plane/internal/domain/reservation.go:62-86 | the two inner loops over the bookings compute the projection of one GPU |
| `Calendar.ComputeCalendar` | AIWM-Docker-GPU-Scheduler-with-Agent/aiwm-docker-control-plane/internal/domain/reservation.go:48-90 | the projection loops compute the hosts of the job's organisation that can be trusted now, projected into its window |
| `StoreInvariant.FinishKeepsValid` | AIWM-Docker-GPU-Scheduler-with-Agent/aiwm-docker-control-plane/internal/store/memory/lifecycle.go:76-91 | ending a job and its reservation in one step keeps the whole state invariant, with commands changed in the same step |
| `StoreInvariant.UpsertKeepsValid` | AIWM-Docker-GPU-Scheduler-with-Agent/aiwm-docker-control-plane/internal/store/memory/store.go:39-68 | registration and re-registration keep the invariant |
| `StoreInvariant.InventoryKeepsValid` | AIWM-Docker-GPU-Scheduler-with-Agent/aiwm-docker-control-plane/internal/store/memory/store.go:107-169 | complete, GPU-only, Docker-only and refused reports keep the invariant |
| `StoreInvariant.CommitKeepsValid` | AIWM-Docker-GPU-Scheduler-with-Agent/aiwm-docker-control-plane/internal/store/memory/store.go:300-385 | dispatch of a booking and the untimed commit keep the invariant |
| `StoreInvariant.CommitTakesFreeGPUs` | AIWM-Docker-GPU-Scheduler-with-Agent/aiwm-docker-control-plane/internal/store/memory/store.go:332-351 | a commit takes only GPUs that no live dispatched job holds |
| `StoreInvariant.StopKeepsValid` | AIWM-Docker-GPU-Scheduler-with-Agent/aiwm-docker-control-plane/internal/store/memory/lifecycle.go:12-56 | all outcomes of a stop request keep the invariant |
| `StoreInvariant.AckKeepsValid` | AIWM-Docker-GPU-Scheduler-with-Agent/aiwm-docker-control-plane/internal/store/memory/store.go:458-479 | acknowledgements, first or repeated, keep the invariant |
| `StoreInvariant.StatusKeepsValid` | AIWM-Docker-GPU-Scheduler-with-Agent/aiwm-docker-control-plane/internal/store/memory/store.go:274-298 | queue expiry and re-wording keep the invariant |
| `StoreInvariant.LeaseKeepsValid` | AIWM-Docker-GPU-Scheduler-with-Agent/aiwm-docker-control-plane/internal/store/memory/store.go:400-456 | leasing keeps the invariant |
| `StoreInvariant.TrainingKeepsValid` | AIWM-Docker-GPU-Scheduler-with-Agent/aiwm-docker-control-plane/internal/store/memory/training.go:10-31 | training updates keep the invariant |
| `StoreInvariant.CreateKeepsValid` | AIWM-Docker-GPU-Scheduler-with-Agent/aiwm-docker-control-plane/internal/store/memory/store.go:225-233 | admission keeps the invariant |
| `StoreInvariant.ReconciledJobOk` | AIWM-Docker-GPU-Scheduler-with-Agent/aiwm-docker-control-plane/internal/store/memory/lifecycle.go:123-180 | whatever a complete report shows, every job stays well formed and keeps its request, place and log |
| `ReplanInvariant.AcceptedIsClear` | AIWM-Docker-GPU-Scheduler-with-Agent/aiwm-docker-control-plane/internal/store/memory/planning.go:58-72 | a placement the store accepts conflicts with no booking of the batch or of the rest |
| `ReplanInvariant.ReplanKeepsValid` | AIWM-Docker-GPU-Scheduler-with-Agent/aiwm-docker-control-plane/internal/store/memory/planning.go:12-91 | replanning keeps the invariant, calendar exclusivity included, for every list of entries and every error a call-back can return |
| `ReplanInvariant.ReplanIsFramed` | AIWM-Docker-GPU-Scheduler-with-Agent/aiwm-docker-control-plane/internal/store/memory/planning.go:32-91 | replanning changes no host, no command and no job that is not replannable |
| `StepOutcomes.RegistrationOutcome` | AIWM-Docker-GPU-Scheduler-with-Agent/aiwm-docker-control-plane/internal/store/memory/store.go:39-68 | who may register a machine again, what a registration resets and what it keeps |
| `StepOutcomes.HeartbeatOutcome` | AIWM-Docker-GPU-Scheduler-with-Agent/aiwm-docker-control-plane/internal/store/memory/store.go:86-105 | a heartbeat brings a host on line and drops its inventory exactly after a silence beyond the timeout |
| `StepOutcomes.DrainOutcome` | AIWM-Docker-GPU-Scheduler-with-Agent/aiwm-docker-control-plane/internal/store/memory/store.go:171-188 | draining and undraining, off-line hosts included |
| `StepOutcomes.UndrainedTakesPlacements` | AIWM-Docker-GPU-Scheduler-with-Agent/aiwm-docker-control-plane/internal/store/memory/store.go:171-188 | once undrained a host can take placements exactly when it is on line, ready, and heard from with a complete inventory within the timeout |
| `StepOutcomes.StaleOutcome` | AIWM-Docker-GPU-Scheduler-with-Agent/aiwm-docker-control-plane/internal/store/memory/store.go:190-202 | exactly the hosts last heard from before the given time go off line |
| `StepOutcomes.StatusOutcome` | AIWM-Docker-GPU-Scheduler-with-Agent/aiwm-docker-control-plane/internal/store/memory/store.go:274-298 | which new status a job may get, what it writes, and that anything else leaves the job alone |
| `StepOutcomes.StopOutcome` | AIWM-Docker-GPU-Scheduler-with-Agent/aiwm-docker-control-plane/internal/store/memory/lifecycle.go:12-56 | for each place a job can be in when the stop comes: the answer, the reason, the event, the released booking and the commands left |
| `StepOutcomes.AckOutcome` | AIWM-Docker-GPU-Scheduler-with-Agent/aiwm-docker-control-plane/internal/store/memory/store.go:458-479 | who may answer a command and which answer counts |
| `StepOutcomes.AnswerMeans` | AIWM-Docker-GPU-Scheduler-with-Agent/aiwm-docker-control-plane/internal/store/memory/lifecycle.go:93-121 | a launch that worked starts an assigned job, one that failed ends it, a stop that failed makes a stopping job run again, and a stop that worked leaves the end to the inventory |
| `StepOutcomes.CommitOutcome` | AIWM-Docker-GPU-Scheduler-with-Agent/aiwm-docker-control-plane/internal/store/memory/store.go:300-385 | a dispatch succeeds exactly when the job may go there now, the host is ready and the addressee of a new command, and every GPU asked for is there and serves the job, with the error otherwise; it reserves those GPUs, stores the command and launches the job |
| `StepOutcomes.TrainingOutcome` | AIWM-Docker-GPU-Scheduler-with-Agent/aiwm-docker-control-plane/internal/store/memory/training.go:10-31 | a training update succeeds exactly on a training job at the expected revision, and what it may not overwrite |
| `InventoryOutcomes.ReportAccepted` | AIWM-Docker-GPU-Scheduler-with-Agent/aiwm-docker-control-plane/internal/store/memory/store.go:107-129 | a report is taken in exactly from a known host, under a new number, without a GPU of another host |
| `InventoryOutcomes.HostAfterReport` | AIWM-Docker-GPU-Scheduler-with-Agent/aiwm-docker-control-plane/internal/store/memory/store.go:131-168 | what each kind of report leaves in its host's entry, and nothing in any other |
| `InventoryOutcomes.ReadinessAfterReport` | AIWM-Docker-GPU-Scheduler-with-Agent/aiwm-docker-control-plane/internal/platform/capabilities.go:38-69 | a host is ready exactly when the report shows every part of it in order |
| `InventoryOutcomes.EndedContainer` | AIWM-Docker-GPU-Scheduler-with-Agent/aiwm-docker-control-plane/internal/store/memory/lifecycle.go:153-167 | when the container that counts has ended, the job is STOPPED if it was stopping or out of time, otherwise SUCCEEDED exactly for exit code 0 and FAILED for any other exit code or none |
| `InventoryOutcomes.ActiveContainer` | AIWM-Docker-GPU-Scheduler-with-Agent/aiwm-docker-control-plane/internal/store/memory/lifecycle.go:144-152 | while it is active an assigned or starting job becomes RUNNING, any other keeps its status, and the reservation is ALLOCATED |
| `InventoryOutcomes.MissingContainer` | AIWM-Docker-GPU-Scheduler-with-Agent/aiwm-docker-control-plane/internal/store/memory/lifecycle.go:169-198 | when no container of it is left, a job has ended exactly when it was on its way and its START, or a STOP of it while it is stopping, was acknowledged by the time of the observation |
| `InventoryOutcomes.OthersAreLeft` | AIWM-Docker-GPU-Scheduler-with-Agent/aiwm-docker-control-plane/internal/store/memory/lifecycle.go:134-141 | a report changes no job of another host, no booking that was not launched, no ended job, and no job at all when it is partial |
| `ReleaseOutcomes.GPUsAfterReport` | AIWM-Docker-GPU-Scheduler-with-Agent/aiwm-docker-control-plane/internal/store/memory/store.go:154-160 | the GPUs of a report are accounted with its processes, the containers now known, and the jobs as the report left them |
| `ReleaseOutcomes.EndingFreesGPUs` | AIWM-Docker-GPU-Scheduler-with-Agent/aiwm-docker-control-plane/internal/store/memory/lifecycle.go:76-91 | a stop, a status or an answer that ends a job accounts its host again, and no other: a GPU is then FREE exactly when it is healthy, not in unknown use, in no active container and held by no other job |
| `ReleaseOutcomes.NobodyEndedKeepsHosts` | AIWM-Docker-GPU-Scheduler-with-Agent/aiwm-docker-control-plane/internal/store/memory/lifecycle.go:12-121 | one that ends no job leaves every host as it was |
| `ReplanOutcomes.EntryExactly` | AIWM-Docker-GPU-Scheduler-with-Agent/aiwm-docker-control-plane/internal/store/memory/planning.go:52-72 | an entry passes the store's check exactly when it places nobody, or its window has not ended and the named GPUs of a ready host are open for the job in it |
| `ReplanOutcomes.PlanExactly` | AIWM-Docker-GPU-Scheduler-with-Agent/aiwm-docker-control-plane/internal/store/memory/planning.go:32-85 | a plan is accepted exactly when it names different jobs that may move and every entry is acceptable given the jobs it does not name and the entries before it |
| `ReplanOutcomes.PlanOutcome` | AIWM-Docker-GPU-Scheduler-with-Agent/aiwm-docker-control-plane/internal/store/memory/planning.go:51-90 | an accepted plan books or queues each job it names as its entry says, keeping the time of a place it already had, and leaves everything else alone |
| `StoreRuns.StepKeepsValid` | AIWM-Docker-GPU-Scheduler-with-Agent/aiwm-docker-control-plane/internal/store/memory/store.go:39-479 | each of the fourteen steps keeps the invariant and lets jobs and commands only move forward |
| `StoreRuns.RunKeepsValid` | AIWM-Docker-GPU-Scheduler-with-Agent/aiwm-docker-control-plane/internal/store/memory/store.go:39-479 | every sequence of steps keeps the invariant |
| `StoreRuns.RunProgresses` | AIWM-Docker-GPU-Scheduler-with-Agent/aiwm-docker-control-plane/internal/store/memory/store.go:39-479 | from any point of a run to its end jobs and commands only move forward, and hosts keep their owner |
| `StoreRuns.PhysicalExclusivity` | AIWM-Docker-GPU-Scheduler-with-Agent/aiwm-docker-control-plane/internal/store/memory/store.go:300-385 | in every reachable state two live dispatched jobs on one host hold disjoint GPUs and no GPU they hold is FREE |
| `StoreRuns.OneBookingPerInstant` | AIWM-Docker-GPU-Scheduler-with-Agent/aiwm-docker-control-plane/internal/store/memory/planning.go:32-89 | in every reachable state at most one live job's booked window covers a GPU at any instant |
| `StoreRuns.CommitReadsOneJob` | AIWM-Docker-GPU-Scheduler-with-Agent/aiwm-docker-control-plane/internal/store/memory/store.go:308-356 | a commit succeeds or fails alike, and writes the same job, whatever the other jobs are |
| `UntimedCommit.UntimedCommitTakesBookedGPU` | AIWM-Docker-GPU-Scheduler-with-Agent/aiwm-docker-control-plane/internal/store/memory/store.go:308-356 | so the calendar does not bind an untimed commit: a reachable state in which one holds the GPU that another job has booked for that very moment, and that job's own dispatch is refused |
| `StoreRuns.SingleLaunch` | AIWM-Docker-GPU-Scheduler-with-Agent/aiwm-docker-control-plane/internal/store/memory/store.go:366-383 | over any run a job has at most one START, the one its assignment names, and it stays so to the end of the run |
| `StoreRuns.Lifecycle` | AIWM-Docker-GPU-Scheduler-with-Agent/aiwm-docker-control-plane/internal/store/memory/lifecycle.go:58-91 | terminal jobs keep everything but training metadata, a launched job keeps its place and never returns to the queue, the log only grows and ends in the current status, and a reservation is RELEASED exactly when its job is terminal |
| `Occupancy.AccountingRemembers` | AIWM-Docker-GPU-Scheduler-with-Agent/aiwm-docker-control-plane/internal/store/memory/accounting.go:39-66 | a recorded GPU state remembers what the report showed on it |
| `Occupancy.StepVouches` | AIWM-Docker-GPU-Scheduler-with-Agent/aiwm-docker-control-plane/internal/store/memory/store.go:107-169 | every step keeps a trusted host's GPUs backed by its last accepted report |
| `Occupancy.OccupancySafety` | AIWM-Docker-GPU-Scheduler-with-Agent/aiwm-docker-control-plane/internal/store/memory/store.go:139-166 | over any run, a free GPU of a host that can take placements was idle in the last accepted inventory, which was complete |
| `CommandProtocol.StartIsOwned` | AIWM-Docker-GPU-Scheduler-with-Agent/aiwm-docker-control-plane/internal/store/memory/planning.go:121-150 | a START is only ever leased inside its window, for a live job, while every GPU of its reservation is present, healthy, accounted to it and held by no other job |
| `CommandProtocol.StopBarsStart` | AIWM-Docker-GPU-Scheduler-with-Agent/aiwm-docker-control-plane/internal/store/memory/store.go:418-432 | once a STOP was leased the job's START is leased neither in the same batch nor later, even when the START's acknowledgement was lost |
| `CommandProtocol.ObservedMeans` | AIWM-Docker-GPU-Scheduler-with-Agent/aiwm-docker-control-plane/internal/store/memory/lifecycle.go:125-133 | the container that stands for a job is an active one when there is any, otherwise the first reported |
| `CommandProtocol.TerminalOnlyByEvidence` | AIWM-Docker-GPU-Scheduler-with-Agent/aiwm-docker-control-plane/internal/store/memory/lifecycle.go:93-198 | a launched job whose START was delivered becomes terminal in a step exactly when the step is a first failed START acknowledgement or a complete inventory of its own host that shows it ended, or absent after an acknowledged START or STOP |
| `CommandProtocol.LeasedJobNeedsEvidence` | AIWM-Docker-GPU-Scheduler-with-Agent/aiwm-docker-control-plane/internal/store/memory/lifecycle.go:93-198 | the same for every later step of any run once the START was leased |
| `CommandProtocol.RestartQuarantines` | AIWM-Docker-GPU-Scheduler-with-Agent/aiwm-docker-control-plane/internal/store/durable/store.go:61-67 | after a restart at any point of a run no START is leased to a host and no commit accepted on it before its next complete inventory |
| `LeaseFairness.OldestFirst` | AIWM-Docker-GPU-Scheduler-with-Agent/aiwm-docker-control-plane/internal/store/memory/store.go:410-446 | a batch is everything that may be leased, or exactly the limit of it; whatever is left out was created later than whatever is in, or at the same time under a greater identifier, and the batch itself is in that order |
| `LeaseFairness.LeasableExactly` | AIWM-Docker-GPU-Scheduler-with-Agent/aiwm-docker-control-plane/internal/store/memory/store.go:410-435 | what may be leased: an own command that is pending or whose lease has run out, a START only while it can be delivered, a STOP only once the START was answered or cannot be delivered again |
| `LeaseFairness.PollDelivers` | AIWM-Docker-GPU-Scheduler-with-Agent/aiwm-docker-control-plane/internal/store/memory/store.go:400-456 | a poll marks exactly its batch as delivered, counts the attempt, and sets the lease from its own clock |
| `LeaseFairness.LeaseIsExclusive` | AIWM-Docker-GPU-Scheduler-with-Agent/aiwm-docker-control-plane/internal/store/memory/store.go:446-455 | once a poll handed a command out, no later poll of any run hands it out again while every poll in between reads the clock within the lease |
| `HostReadiness.DistrustedUntilInventory` | AIWM-Docker-GPU-Scheduler-with-Agent/aiwm-docker-control-plane/internal/store/memory/store.go:86-105 | re-registration, a heartbeat after silence, a partial report and a restart each bar launches on the host until its next complete inventory |
| `HostReadiness.LaunchNeedsFreshReport` | AIWM-Docker-GPU-Scheduler-with-Agent/aiwm-docker-control-plane/internal/domain/model.go:114-119 | in every run, when a START is committed to a host or handed out there, the host is ready, on line and undrained, and the last inventory accepted from it was complete and is no older than the timeout |
| `HostReadiness.DrainingHolds` | AIWM-Docker-GPU-Scheduler-with-Agent/aiwm-docker-control-plane/internal/store/memory/store.go:171-188 | a drained host starts nothing until it is undrained, through registrations, inventories, heartbeats and restarts |
| `Terminations.StopIsExplained` | AIWM-Docker-GPU-Scheduler-with-Agent/aiwm-docker-control-plane/internal/store/memory/lifecycle.go:23-28 | a stop records TIME_LIMIT when it comes at or after the end of the requested window and USER_CANCELLED otherwise, unless a reason was recorded before |
| `Terminations.EndingsAreExplained` | AIWM-Docker-GPU-Scheduler-with-Agent/aiwm-docker-control-plane/internal/store/memory/lifecycle.go:58-74 | in every reachable state the recorded reason agrees with the status and with a logged stop on the right side of the window's end |
| `MemoryRepository.MemoryStore.constructor` | AIWM-Docker-GPU-Scheduler-with-Agent/aiwm-docker-control-plane/internal/store/memory/store.go:25-37 | an empty store satisfies the invariant |
| `MemoryRepository.MemoryStore.UpsertServer` | AIWM-Docker-GPU-Scheduler-with-Agent/aiwm-docker-control-plane/internal/store/memory/store.go:39-68 | performs the registration step: on success the whole new state, on error no change |
| `MemoryRepository.MemoryStore.Heartbeat` | AIWM-Docker-GPU-Scheduler-with-Agent/aiwm-docker-control-plane/internal/store/memory/store.go:86-105 | performs the heartbeat step |
| `MemoryRepository.MemoryStore.ReplaceInventory` | AIWM-Docker-GPU-Scheduler-with-Agent/aiwm-docker-control-plane/internal/store/memory/store.go:107-169 | performs the inventory step, reconciliation and accounting included |
| `MemoryRepository.MemoryStore.SetServerDrained` | AIWM-Docker-GPU-Scheduler-with-Agent/aiwm-docker-control-plane/internal/store/memory/store.go:171-188 | performs the drain step |
| `MemoryRepository.MemoryStore.MarkStaleServers` | AIWM-Docker-GPU-Scheduler-with-Agent/aiwm-docker-control-plane/internal/store/memory/store.go:190-202 | performs the stale sweep and returns how many hosts went off line |
| `MemoryRepository.MemoryStore.CreateJob` | AIWM-Docker-GPU-Scheduler-with-Agent/aiwm-docker-control-plane/internal/store/memory/store.go:225-233 | performs the admission step |
| `MemoryRepository.MemoryStore.SetJobStatus` | AIWM-Docker-GPU-Scheduler-with-Agent/aiwm-docker-control-plane/internal/store/memory/store.go:274-298 | performs the status step |
| `MemoryRepository.MemoryStore.CommitAssignment` | AIWM-Docker-GPU-Scheduler-with-Agent/aiwm-docker-control-plane/internal/store/memory/store.go:300-385 | performs the dispatch step |
| `MemoryRepository.MemoryStore.LeaseCommands` | AIWM-Docker-GPU-Scheduler-with-Agent/aiwm-docker-control-plane/internal/store/memory/store.go:400-456 | performs the lease step and returns the batch in order, as delivered |
| `MemoryRepository.MemoryStore.AckCommand` | AIWM-Docker-GPU-Scheduler-with-Agent/aiwm-docker-control-plane/internal/store/memory/store.go:458-479 | performs the acknowledgement step |
| `MemoryRepository.MemoryStore.RequestStop` | AIWM-Docker-GPU-Scheduler-with-Agent/aiwm-docker-control-plane/internal/store/memory/lifecycle.go:12-56 | performs the stop step |
| `MemoryRepository.MemoryStore.ReleaseLocked` | AIWM-Docker-GPU-Scheduler-with-Agent/aiwm-docker-control-plane/internal/store/memory/lifecycle.go:76-91 | releases and re-accounts in place; the new state is the specified one |
| `MemoryRepository.MemoryStore.ApplyAckLocked` | AIWM-Docker-GPU-Scheduler-with-Agent/aiwm-docker-control-plane/internal/store/memory/lifecycle.go:93-121 | applies the first acknowledgement to its job in place |
| `MemoryRepository.MemoryStore.ReconcileLocked` | AIWM-Docker-GPU-Scheduler-with-Agent/aiwm-docker-control-plane/internal/store/memory/lifecycle.go:123-180 | every job of the host is reconciled in any iteration order, other hosts untouched |
| `MemoryRepository.MemoryStore.StartIsDeliverable` | AIWM-Docker-GPU-Scheduler-with-Agent/aiwm-docker-control-plane/internal/store/memory/planning.go:121-150 | counting found GPUs decides that every reserved GPU is present and owned |
| `MemoryRepository.MemoryStore.ReplanReservations` | AIWM-Docker-GPU-Scheduler-with-Agent/aiwm-docker-control-plane/internal/store/memory/planning.go:12-91 | performs the replan step for any call-back and returns the number of new places |
| `MemoryRepository.MemoryStore.UpdateTraining` | AIWM-Docker-GPU-Scheduler-with-Agent/aiwm-docker-control-plane/internal/store/memory/training.go:10-31 | performs the training step |
| `MemoryRepository.MemoryStore.Export` | AIWM-Docker-GPU-Scheduler-with-Agent/aiwm-docker-control-plane/internal/store/memory/snapshot.go:14-32 | returns the state |
| `MemoryRepository.MemoryStore.Restore` | AIWM-Docker-GPU-Scheduler-with-Agent/aiwm-docker-control-plane/internal/store/memory/snapshot.go:34-39 | replaces the state |
| `RepositoryLoops.MatchesAll` | AIWM-Docker-GPU-Scheduler-with-Agent/aiwm-docker-control-plane/internal/store/memory/planning.go:97-118 | `found == len(wanted)` means: different, non-empty identifiers, each naming a present GPU that matches |
| `RepositoryLoops.PlacementFits` | AIWM-Docker-GPU-Scheduler-with-Agent/aiwm-docker-control-plane/internal/store/memory/planning.go:93-119 | the placement check decides exactly the placement condition |
| `RepositoryLoops.ReportsForeignGPU` | AIWM-Docker-GPU-Scheduler-with-Agent/aiwm-docker-control-plane/internal/store/memory/store.go:118-129 | decides exactly whether a reported GPU belongs to another host |
| `RepositoryLoops.ManagedByJob` | AIWM-Docker-GPU-Scheduler-with-Agent/aiwm-docker-control-plane/internal/store/memory/lifecycle.go:125-133 | one pass finds the container that stands for every job |
| `RepositoryLoops.FindStopConfirmation` | AIWM-Docker-GPU-Scheduler-with-Agent/aiwm-docker-control-plane/internal/store/memory/lifecycle.go:182-198 | finds an acknowledged STOP exactly when there is one |
| `RepositoryLoops.ReconcileOne` | AIWM-Docker-GPU-Scheduler-with-Agent/aiwm-docker-control-plane/internal/store/memory/lifecycle.go:134-179 | one iteration computes the reconciled job |
| `RepositoryLoops.RecordTermination` | AIWM-Docker-GPU-Scheduler-with-Agent/aiwm-docker-control-plane/internal/store/memory/lifecycle.go:23-28 | the first reason recorded for a stop wins |
| `RepositoryLoops.ClaimEntries` | AIWM-Docker-GPU-Scheduler-with-Agent/aiwm-docker-control-plane/internal/store/memory/planning.go:32-44 | accepts exactly the plans whose entries name different replannable jobs |
| `RepositoryLoops.PlaceEntries` | AIWM-Docker-GPU-Scheduler-with-Agent/aiwm-docker-control-plane/internal/store/memory/planning.go:51-85 | the validation loop computes the batch of the specification, count and bookings included |
| `Durable.DurableStore.constructor` | AIWM-Docker-GPU-Scheduler-with-Agent/aiwm-docker-control-plane/internal/store/durable/store.go:31-73 | a new process, with any off-line timeout, holds the saved state with every host off line and without inventory |
| `Durable.DurableStore.Transact` | AIWM-Docker-GPU-Scheduler-with-Agent/aiwm-docker-control-plane/internal/store/durable/store.go:78-93 | memory and disk change together or not at all; a failed operation or save leaves both as before; equal stays equal |
| `Durable.Quarantine` | AIWM-Docker-GPU-Scheduler-with-Agent/aiwm-docker-control-plane/internal/store/durable/store.go:61-66 | the loop over the loaded hosts is the restart step |
| `Durable.CrashesAreRestarts` | AIWM-Docker-GPU-Scheduler-with-Agent/aiwm-docker-control-plane/internal/store/durable/store.go:32-93 | under any interleaving of calls, failed saves and crashes memory is what the committed steps alone produce, so every result about runs holds of it |
| `Durable.RecoveryIsExact` | AIWM-Docker-GPU-Scheduler-with-Agent/aiwm-docker-control-plane/internal/store/durable/store.go:46-73 | after a crash the invariant holds, jobs and commands are exactly those on disk, and no host is trusted |
| `Durable.RecoveryQuarantines` | AIWM-Docker-GPU-Scheduler-with-Agent/aiwm-docker-control-plane/internal/store/durable/store.go:61-67 | and nothing starts on a host before its next complete inventory |
| `Policy.WaitingCoefficient` | AIWM-Docker-GPU-Scheduler-with-Agent/aiwm-docker-control-plane/internal/policy/engine.go:55-64 | one tenth per full week, at most four, none for a clock behind the request |
| `Policy.WaitingTenths` | AIWM-Docker-GPU-Scheduler-with-Agent/aiwm-docker-control-plane/internal/policy/engine.go:55-64 | the week thresholds, both directions |
| `Policy.Evaluate` | AIWM-Docker-GPU-Scheduler-with-Agent/aiwm-docker-control-plane/internal/policy/engine.go:65-87 | lane and score in thousandths of a job |
| `Policy.Order` | AIWM-Docker-GPU-Scheduler-with-Agent/aiwm-docker-control-plane/internal/policy/engine.go:89-101 | re-evaluates and sorts |
| `Policy.BeforeIsTotal` | AIWM-Docker-GPU-Scheduler-with-Agent/aiwm-docker-control-plane/internal/policy/engine.go:117-132 | the queue order is a strict total order on different jobs |
| `Policy.OrderedIsSorted` | AIWM-Docker-GPU-Scheduler-with-Agent/aiwm-docker-control-plane/internal/policy/engine.go:89-101 | every job once, evaluated now, in strict order |
| `Policy.FifoWithinClass` | AIWM-Docker-GPU-Scheduler-with-Agent/aiwm-docker-control-plane/internal/policy/engine.go:55-87 | jobs of one necessity, importance and size are served first come, first served at any time |
| `Policy.ScoreNeverOverrides` | AIWM-Docker-GPU-Scheduler-with-Agent/aiwm-docker-control-plane/internal/policy/engine.go:117-132 | along the ordered queue jobs of the sizing plan within quota come first, then the necessity from 1 to 4 and unknown ones last, and only inside one necessity the greater score, which lies between 0.640 and 1.960, then the earlier request, then the smaller identifier |
| `Policy.ScoreRanks` | AIWM-Docker-GPU-Scheduler-with-Agent/aiwm-docker-control-plane/internal/policy/engine.go:41-87 | at the same wait and quota the score falls along CRITICAL, VERY_IMPORTANT, IMPORTANT and NORMAL, an unknown importance counts as NORMAL, and no wait makes up for both quota and importance |
| `Policy.ScoreLevels` | AIWM-Docker-GPU-Scheduler-with-Agent/aiwm-docker-control-plane/internal/policy/engine.go:41-54 | within quota and without a wait the scores are 1.400, 1.200, 1.000 and 0.800 |
| `Policy.ImportanceDecides` | AIWM-Docker-GPU-Scheduler-with-Agent/aiwm-docker-control-plane/internal/policy/engine.go:41-132 | of two jobs of one necessity and size, requested together, the more important one is queued first |
| `Policy.OrderedFilter` | AIWM-Docker-GPU-Scheduler-with-Agent/aiwm-docker-control-plane/internal/policy/engine.go:89-101 | ordering a selection is selecting from the ordered whole |
| `Scheduler.MatchingGPUs` | AIWM-Docker-GPU-Scheduler-with-Agent/aiwm-docker-control-plane/internal/application/scheduler.go:167-182 | the matching GPUs, sorted |
| `Scheduler.FragmentationScore` | AIWM-Docker-GPU-Scheduler-with-Agent/aiwm-docker-control-plane/internal/application/scheduler.go:184-197 | the fragmentation score |
| `Scheduler.PlanPlacement` | AIWM-Docker-GPU-Scheduler-with-Agent/aiwm-docker-control-plane/internal/application/scheduler.go:59-83 | filter, score and select compute the plan |
| `Scheduler.PlanIsOptimal` | AIWM-Docker-GPU-Scheduler-with-Agent/aiwm-docker-control-plane/internal/application/scheduler.go:60-83 | a plan exists exactly when some host fits, and is the least (score, host) of all that fit, for each strategy |
| `Scheduler.TakesLeastGPUs` | AIWM-Docker-GPU-Scheduler-with-Agent/aiwm-docker-control-plane/internal/application/scheduler.go:167-182 | a matching GPU that is not taken has more memory available than each GPU taken, or as much and a greater identifier |
| `Scheduler.PlanTakesLeast` | AIWM-Docker-GPU-Scheduler-with-Agent/aiwm-docker-control-plane/internal/application/scheduler.go:59-83 | the same of the plan that is returned |
| `Scheduler.PlanIsLeast` | AIWM-Docker-GPU-Scheduler-with-Agent/aiwm-docker-control-plane/internal/application/scheduler.go:28-56 | no host that fits has a smaller score than the chosen one, or the same and a smaller identifier |
| `Scheduler.ScoreExactly` | AIWM-Docker-GPU-Scheduler-with-Agent/aiwm-docker-control-plane/internal/application/scheduler.go:28-56 | the score of each strategy in the numbers of GPUs of the host |
| `Scheduler.PlanIsCanonical` | AIWM-Docker-GPU-Scheduler-with-Agent/aiwm-docker-control-plane/internal/application/scheduler.go:59-83 | the placement is the same for every order of the hosts and every order of the GPUs inside them |
| `Scheduler.FragmentationPrefers` | AIWM-Docker-GPU-Scheduler-with-Agent/aiwm-docker-control-plane/internal/application/scheduler.go:184-197 | a partly used host beats a fully free one, and a host filled up beats one left partial, whatever the GPU counts |
| `Scheduler.PlanPrefers` | AIWM-Docker-GPU-Scheduler-with-Agent/aiwm-docker-control-plane/internal/application/scheduler.go:28-56 | what the chosen host is among all that fit: FIRST_FIT the least identifier, BEST_FIT none has fewer matching GPUs, BINPACK none is more full, FRAGMENTATION fully free only when all are, and left partial only when none of its kind could be filled up |
| `Planner.Split` | AIWM-Docker-GPU-Scheduler-with-Agent/aiwm-docker-control-plane/internal/application/planning.go:19-36 | candidates and fixed bookings, exactly |
| `Planner.PlanOne` | AIWM-Docker-GPU-Scheduler-with-Agent/aiwm-docker-control-plane/internal/application/planning.go:38-60 | one iteration decides one entry |
| `Planner.ComputePlan` | AIWM-Docker-GPU-Scheduler-with-Agent/aiwm-docker-control-plane/internal/application/planning.go:16-63 | the planning loop computes the plan of the specification |
| `PlanOutcomes.PlanCovers` | AIWM-Docker-GPU-Scheduler-with-Agent/aiwm-docker-control-plane/internal/application/planning.go:19-36 | a plan decides once about every job in the caller's scope that is queued or booked for later, and about no other |
| `PlanOutcomes.PlanIsRanked` | AIWM-Docker-GPU-Scheduler-with-Agent/aiwm-docker-control-plane/internal/application/planning.go:31-38 | in the order of the policy, with every tie-break, each entry carrying the ranking of its job |
| `PlanOutcomes.EntryPlaces` | AIWM-Docker-GPU-Scheduler-with-Agent/aiwm-docker-control-plane/internal/application/planning.go:48-58 | a placed job gets the best offer by the configured strategy among the hosts projected into its window, and there the GPUs with the least memory to spare |
| `PlannerAgreement.ChosenMatches` | AIWM-Docker-GPU-Scheduler-with-Agent/aiwm-docker-control-plane/internal/application/scheduler.go:60-83 | what the scheduler picks passes the store's placement check |
| `PlannerAgreement.Lockstep` | AIWM-Docker-GPU-Scheduler-with-Agent/aiwm-docker-control-plane/internal/store/memory/planning.go:51-85 | store and planner walk through the entries with equivalent bookings, each accepted |
| `PlannerAgreement.PlanIsAccepted` | AIWM-Docker-GPU-Scheduler-with-Agent/aiwm-docker-control-plane/internal/application/planning.go:31-61 | for every valid state the plan made on the snapshot passes the store's own validation at the same instant: no conflict, ever |
| `PlannerFairness.PriorityNonInterference` | AIWM-Docker-GPU-Scheduler-with-Agent/aiwm-docker-control-plane/internal/application/planning.go:27-61 | removing or adding a job changes no entry ranked before it |
| `PlannerFairness.NoFalseWaiting` | AIWM-Docker-GPU-Scheduler-with-Agent/aiwm-docker-control-plane/internal/application/planning.go:38-60 | a job is placed exactly when it can be served and some ready host of its organisation has enough open GPUs, and otherwise waits for the reason that holds |
| `PlannerFairness.EveryDecisionIsJust` | AIWM-Docker-GPU-Scheduler-with-Agent/aiwm-docker-control-plane/internal/application/planning.go:37-61 | the same for every position of a plan, against the bookings in hand there |
| `PlannerTenancy.ProjectIgnores` | AIWM-Docker-GPU-Scheduler-with-Agent/aiwm-docker-control-plane/internal/domain/reservation.go:54-86 | bookings on other hosts do not touch the projection of a host |
| `PlannerTenancy.TenantNonInterference` | AIWM-Docker-GPU-Scheduler-with-Agent/aiwm-docker-control-plane/internal/application/planning.go:18-63 | an organisation's entries are the same whether the planner sees everybody or only its jobs and hosts |
| `PlannerTenancy.TenantIsolation` | AIWM-Docker-GPU-Scheduler-with-Agent/aiwm-docker-control-plane/internal/application/planning.go:18-63 | so in every valid repository state |
| `PlannerTenancy.ScopeChangesNothing` | AIWM-Docker-GPU-Scheduler-with-Agent/aiwm-docker-control-plane/internal/application/tenancy.go:8-12 | and so for a caller restricted to the organisation |
| `PlannerIdempotence.PlacingTwice` | AIWM-Docker-GPU-Scheduler-with-Agent/aiwm-docker-control-plane/internal/store/memory/planning.go:70-82 | accepting the same entry again rewrites the job to itself, without an event |
| `PlannerIdempotence.ReplanCountsMoves` | AIWM-Docker-GPU-Scheduler-with-Agent/aiwm-docker-control-plane/internal/store/memory/planning.go:73-79 | the returned count is the number of jobs that got a place they did not have |
| `PlannerIdempotence.ReplanningIsIdempotent` | AIWM-Docker-GPU-Scheduler-with-Agent/aiwm-docker-control-plane/internal/store/memory/planning.go:49-90 | when all placed windows start later, a second run at the same instant returns the same plan, counts 0 and leaves every job as it was |
| `ReplanMoves.BegunWindowMovesAnother` | AIWM-Docker-GPU-Scheduler-with-Agent/aiwm-docker-control-plane/internal/application/planning.go:27-61 | the condition is needed: a reachable state in which a placed window has begun, and the second run at the same instant moves another job to another host |
| `Sweep.TurnSettles` | AIWM-Docker-GPU-Scheduler-with-Agent/aiwm-docker-control-plane/internal/application/planning.go:77-138 | one turn never fails, keeps the invariant, touches one job, and ends, dispatches or keeps it as its window demands |
| `Sweep.SweepIsComplete` | AIWM-Docker-GPU-Scheduler-with-Agent/aiwm-docker-control-plane/internal/application/planning.go:65-140 | after a pass, whatever its clock readings, every job whose requested time was over at its turn is terminal or stopping, every booking whose window had begun and not ended then is dispatched or still planned at the same place, and a START was created only for such a window |
| `SweepOutcomes.TurnOutcome` | AIWM-Docker-GPU-Scheduler-with-Agent/aiwm-docker-control-plane/internal/application/planning.go:77-138 | which steps a turn takes and when: a lost upload is given up, a job out of time fails in the queue and is stopped elsewhere, a checkpoint is asked for when the warning is due, and a booking that has begun is dispatched exactly when its host is ready and has the room, otherwise noted as waiting |
| `Sweep.SweepStartsInTime` | AIWM-Docker-GPU-Scheduler-with-Agent/aiwm-docker-control-plane/internal/application/planning.go:65-140 | whatever a pass launches had begun and not ended at its own turn |
| `ControlPlane.Worker.RecoverTrainingUpload` | AIWM-Docker-GPU-Scheduler-with-Agent/aiwm-docker-control-plane/internal/application/training.go:126-146 | clears an expired upload lease; a lost race changes nothing |
| `ControlPlane.Worker.RequestCheckpoint` | AIWM-Docker-GPU-Scheduler-with-Agent/aiwm-docker-control-plane/internal/application/training.go:110-124 | asks for a checkpoint when the warning is due |
| `ControlPlane.Worker.Turn` | AIWM-Docker-GPU-Scheduler-with-Agent/aiwm-docker-control-plane/internal/application/planning.go:78-138 | performs one turn of the pass |
| `ControlPlane.Worker.ProcessReservations` | AIWM-Docker-GPU-Scheduler-with-Agent/aiwm-docker-control-plane/internal/application/planning.go:65-140 | the whole pass, reading the clock anew in every turn, performs the specified sweep and never fails |
| `ControlPlane.Worker.ReplanOnce` | AIWM-Docker-GPU-Scheduler-with-Agent/aiwm-docker-control-plane/internal/application/controlplane.go:286-290 | replanning through the planner always succeeds and performs the replan step |
| `ControlPlane.Worker.ScheduleOnce` | AIWM-Docker-GPU-Scheduler-with-Agent/aiwm-docker-control-plane/internal/application/controlplane.go:277-294 | one cycle: a pass, a planner run on what it left, and a second pass; it never fails and returns the planner's count |
| `ControlPlane.CycleLaunchesDue` | AIWM-Docker-GPU-Scheduler-with-Agent/aiwm-docker-control-plane/internal/application/controlplane.go:277-294 | what the planner run of a cycle books for a window that contains its turn in the second pass is on its way at the end of the cycle, or still planned at that place |
| `Publication.TrainingDeadline` | AIWM-Docker-GPU-Scheduler-with-Agent/aiwm-docker-control-plane/internal/application/training.go:48-59 | the loop computes the deadline |
| `Publication.DeadlineExactly` | AIWM-Docker-GPU-Scheduler-with-Agent/aiwm-docker-control-plane/internal/application/training.go:48-59 | the earliest of the window's end and every stop or end, each plus the grace |
| `Publication.WarningAt` | AIWM-Docker-GPU-Scheduler-with-Agent/aiwm-docker-control-plane/internal/application/training.go:65-79 | the warning precedes the window's end by the given fraction of its length, clamped to the bounds of the lead and never before the start |
| `Publication.NoABA` | AIWM-Docker-GPU-Scheduler-with-Agent/aiwm-docker-control-plane/internal/store/memory/training.go:18-20 | a swap succeeds only on the training state its caller read |
| `Publication.ActKeepsSound` | AIWM-Docker-GPU-Scheduler-with-Agent/aiwm-docker-control-plane/internal/application/training.go:188-264 | begin, finish, recovery, warning and any other repository step keep the protocol's invariant, each acting on any earlier version of the job |
| `Publication.PublicationSafety` | AIWM-Docker-GPU-Scheduler-with-Agent/aiwm-docker-control-plane/internal/application/training.go:188-264 | under any interleaving a READY artifact keeps its URI, a checkpoint URI is never emptied, FAILED has none, AVAILABLE and READY have one, the deadline never moves later and every output is stamped before it |
| `Publication.SupersededChangesNothing` | AIWM-Docker-GPU-Scheduler-with-Agent/aiwm-docker-control-plane/internal/application/training.go:248-258 | an uploader changes nothing exactly when the training state moved on since its lease; otherwise its result is what is stored |
| `PublicationOutcomes.BeginOutcome` | AIWM-Docker-GPU-Scheduler-with-Agent/aiwm-docker-control-plane/internal/application/training.go:188-223 | an upload begins exactly on an up-to-date reading that allows it, and what it writes |
| `PublicationOutcomes.FinishOutcome` | AIWM-Docker-GPU-Scheduler-with-Agent/aiwm-docker-control-plane/internal/application/training.go:227-263 | a finished upload is written exactly when the training did not move on; the object becomes the output when it was stored in time, otherwise the output failed or falls back to the checkpoint before it |
| `PublicationOutcomes.RecoverOutcome` | AIWM-Docker-GPU-Scheduler-with-Agent/aiwm-docker-control-plane/internal/application/training.go:126-146 | an upload is given up exactly when its lease timed out or the deadline passed |
| `PublicationOutcomes.RequestOutcome` | AIWM-Docker-GPU-Scheduler-with-Agent/aiwm-docker-control-plane/internal/application/training.go:110-124 | a checkpoint is asked for exactly when the warning is due on an up-to-date reading and the job still runs |
| `TrainingFrame.StepIsSwapOrElsewhere` | AIWM-Docker-GPU-Scheduler-with-Agent/aiwm-docker-control-plane/internal/store/memory/training.go:10-31 | seen from one job, a repository step is one swap of the protocol or leaves its training state alone |
| `TrainingFrame.CheckpointRequestedWhileRunning` | AIWM-Docker-GPU-Scheduler-with-Agent/aiwm-docker-control-plane/internal/store/memory/training.go:21-23 | a checkpoint is only ever requested of a running job |
| `PublicationRuns.MovesAreARun` | AIWM-Docker-GPU-Scheduler-with-Agent/aiwm-docker-control-plane/internal/application/training.go:188-264 | one job's uploaders, recovery and warnings, interleaved with any other repository steps, are a legal repository run in which the repository always holds the newest version of the protocol |
| `PublicationRuns.PublicationSafetyOfRuns` | AIWM-Docker-GPU-Scheduler-with-Agent/aiwm-docker-control-plane/internal/application/training.go:188-264 | so the publication guarantees hold of repository runs, between any two moments of the job's life |
| `AgentProtocol.InventoryToDomain` | AIWM-Docker-GPU-Scheduler-with-Agent/aiwm-docker-control-plane/internal/application/agent_protocol.go:12-81 | accepts exactly the well-formed reports and converts them |
| `AgentProtocol.AcceptedExactly` | AIWM-Docker-GPU-Scheduler-with-Agent/aiwm-docker-control-plane/internal/application/agent_protocol.go:12-81 | which reports are accepted, in the fields of the report |
| `AgentProtocol.ReportOutcome` | AIWM-Docker-GPU-Scheduler-with-Agent/aiwm-docker-control-plane/internal/application/agent_protocol.go:12-81 | what an accepted report becomes, entry by entry |
| `AgentProtocol.AcceptedReportsAreSound` | AIWM-Docker-GPU-Scheduler-with-Agent/aiwm-docker-control-plane/internal/application/agent_protocol.go:32-52 | an accepted report has distinct, named GPUs with sane memory, none claiming an owner |
| `AgentProtocol.PartialReportsAreMarked` | AIWM-Docker-GPU-Scheduler-with-Agent/aiwm-docker-control-plane/internal/application/agent_protocol.go:13-29 | a failed source is marked and empty, and readiness needs a complete report with a GPU |
| `AgentHost.ConfiguredGPUs` | AIWM-Docker-GPU-Scheduler-with-Agent/aiwm-docker-control-plane/internal/agent/inventory.go:66-98 | a container's devices by identifier, by index, or all of them when it cannot be pinned down |
| `AgentHost.MatchContainerID` | AIWM-Docker-GPU-Scheduler-with-Agent/aiwm-docker-control-plane/internal/agent/inventory.go:210-220 | an exact identifier wins, otherwise a listed container whose identifier extends or abbreviates the given one, none exactly when there is none |
| `AgentHost.AttributeProcess` | AIWM-Docker-GPU-Scheduler-with-Agent/aiwm-docker-control-plane/internal/agent/inventory.go:110-123 | a process is attributed to the container it was reported with or, without that, to the one its resolved identifier matches; without Docker the driver's answer is not believed |
| `AgentHost.Snapshot` | AIWM-Docker-GPU-Scheduler-with-Agent/aiwm-docker-control-plane/internal/agent/inventory.go:59-143 | attribution of devices to containers and of unknown use, exactly |
| `AgentHost.GPUsAvailable` | AIWM-Docker-GPU-Scheduler-with-Agent/aiwm-docker-control-plane/internal/agent/inventory.go:152-192 | the check decides exactly: ready, and every wanted device healthy and unoccupied |
| `AgentHost.Executor.StartManagedContainer` | AIWM-Docker-GPU-Scheduler-with-Agent/aiwm-docker-control-plane/internal/simulator/agent.go:91-114 | idempotent start; a refused or unsaved start leaves the containers as they were |
| `AgentHost.Executor.StopManagedJob` | AIWM-Docker-GPU-Scheduler-with-Agent/aiwm-docker-control-plane/internal/simulator/agent.go:116-142 | stops the job's own container, refuses a named target that is not the job's, and a failed save restores it |
| `AgentHost.Executor.ExecuteOrder` | AIWM-Docker-GPU-Scheduler-with-Agent/aiwm-docker-control-plane/internal/agent/executor.go:24-63 | check, then act, keeping the host invariant |
| `AgentHost.HostExclusivity` | AIWM-Docker-GPU-Scheduler-with-Agent/aiwm-docker-control-plane/internal/agent/executor.go:24-43 | in every run active managed containers of different jobs hold disjoint devices, whatever is observed |
| `AgentOutcomes.LaunchOutcome` | AIWM-Docker-GPU-Scheduler-with-Agent/aiwm-docker-control-plane/internal/agent/executor.go:24-43 | a launch is let through exactly when the order is complete, the containers could be read, and each device is healthy, without unexplained use, and used by nobody but the job; then what it changes and answers |
| `AgentOutcomes.StopOutcome` | AIWM-Docker-GPU-Scheduler-with-Agent/aiwm-docker-control-plane/internal/simulator/agent.go:116-142 | what a stop changes and answers in each case |
| `AgentHost.AloneExactly` | AIWM-Docker-GPU-Scheduler-with-Agent/aiwm-docker-control-plane/internal/agent/inventory.go:152-192 | a new container shares none of its devices with an active container or a process exactly when no active container labelled for its job in another case is seen on them |
| `AgentHost.ImpostorSharesGPU` | AIWM-Docker-GPU-Scheduler-with-Agent/aiwm-docker-control-plane/internal/agent/inventory.go:203-208 | a host on which such a container shares a GPU with the new one |
| `AgentRunner.Runner.constructor` | AIWM-Docker-GPU-Scheduler-with-Agent/aiwm-docker-control-plane/internal/agent/runner.go:48-59 | loads the saved state; the history limit is positive |
| `AgentRunner.Runner.SaveLocked` | AIWM-Docker-GPU-Scheduler-with-Agent/aiwm-docker-control-plane/internal/agent/runner.go:374-385 | one commit, or the failure that stops the process |
| `AgentRunner.FailsExactly` | AIWM-Docker-GPU-Scheduler-with-Agent/aiwm-docker-control-plane/internal/agent/runner.go:374-385 | the process fails with the first save that reports an error, whether or not that save reached the disk, and after a restart works from what the disk holds |
| `AgentRunner.Runner.NextSequence` | AIWM-Docker-GPU-Scheduler-with-Agent/aiwm-docker-control-plane/internal/agent/runner.go:220-231 | a sequence number is on disk before a report may carry it |
| `AgentRunner.Runner.RememberResult` | AIWM-Docker-GPU-Scheduler-with-Agent/aiwm-docker-control-plane/internal/agent/runner.go:357-372 | stores, evicts the oldest, commits: at most the limit of results stay, none invented |
| `AgentRunner.Runner.ProcessCommand` | AIWM-Docker-GPU-Scheduler-with-Agent/aiwm-docker-control-plane/internal/agent/runner.go:264-282 | one undisturbed iteration performs the moves of the loop: it executes only what is not on disk, answers the rest from disk, and does nothing after a failed save |
| `AgentRunner.SequencesNeverReused` | AIWM-Docker-GPU-Scheduler-with-Agent/aiwm-docker-control-plane/internal/agent/runner.go:220-247 | over any run, restarts, failed saves and repeated sendings included, a sequence number that reached a report never stands for another report |
| `AgentRunner.EvictionSelects` | AIWM-Docker-GPU-Scheduler-with-Agent/aiwm-docker-control-plane/internal/agent/runner.go:363-370 | eviction keeps at most the limit of results, each as it was stored, and loses none while there is room |
| `AgentRunner.StoredIsNotRepeated` | AIWM-Docker-GPU-Scheduler-with-Agent/aiwm-docker-control-plane/internal/agent/runner.go:271-277 | a command whose result is on disk is not executed again |
| `AgentRunner.AckIsDurableExactly` | AIWM-Docker-GPU-Scheduler-with-Agent/aiwm-docker-control-plane/internal/agent/runner.go:357-372 | the acknowledged result is on disk for every order of eviction exactly when fewer results than the limit are as young |
| `AgentRunner.LaterHasRoom` | AIWM-Docker-GPU-Scheduler-with-Agent/aiwm-docker-control-plane/internal/agent/runner.go:357-372 | a clock past every stored result leaves room in the history |
| `AgentRunner.ForgottenRunsAgain` | AIWM-Docker-GPU-Scheduler-with-Agent/aiwm-docker-control-plane/internal/agent/runner.go:361-370 | a full history and a clock that did not move: acknowledged, forgotten, executed again |
| `AgentRunner.FailureStopsExactly` | AIWM-Docker-GPU-Scheduler-with-Agent/aiwm-docker-control-plane/internal/agent/runner.go:264-282 | after a failed save nothing more is executed or acknowledged in the process, whatever follows, exactly when no command is past its check |
| `AgentRunner.OneMayAlreadyBePastTheCheck` | AIWM-Docker-GPU-Scheduler-with-Agent/aiwm-docker-control-plane/internal/agent/runner.go:264-282 | an execution and an acknowledgement that begin after another loop's save failed |

## Left out

- PlannerIdempotence.ReplanningIsIdempotent: is about plans whose windows all start later; once one has begun a second run may move another job, see `ReplanMoves.BegunWindowMovesAnother`
- CommandProtocol.StopBarsStart: assumes that the clock does not run backwards between the two polls
- StoreRuns.OneBookingPerInstant: is about jobs with a window; the untimed commit obeys physical exclusivity only
- Policy.Evaluate: takes the facts of the development configuration; other fact providers and their errors are not modelled
- Publication.WarningAt: multiplies exactly, without binary floating-point rounding
- Durable.DurableStore.constructor: assumes a snapshot that decodes; file locks, format versions and atomic rename are one commit that may fail, and a run with crashes keeps one off-line timeout
- Identifiers and times are integers with a distinguished empty value; string order, trimming, case folding, time zones and saturation of durations are not modelled
- Reasons are an enumeration and matter only for equality; the wording, the diagnostics of a refused placement and GPU state reasons are not modelled
- Names, addresses, tokens, images, environments, utilisation and temperature of stored entities
- Command payloads are the job they name; a payload that does not decode is not modelled
- AuthenticateAgent, GetServer, GetJob, ListServers, ListQueuedJobs and EnqueueCommand of the store
- Read-only views: summary, lists, previews and the match preview of a job that is not stored
- HTTP, the JSON codec, the console, PostgreSQL metadata, sessions, enrollment and request validation; an organisation is an identifier and an enabled set
- Docker SDK, NVML, S3, cgroup and /proc adapters; the simulated runtime stands for Docker, and which container identifier a process resolves to is an input
- Registration and heartbeat traffic of the Agent, retry delays and context cancellation; goroutines are interleavings of atomic steps
- A host whose containers change between the Agent's check and its launch
