/** The in-memory repository. Each method is one critical section; it is proved to perform its step of the
  state machine and to keep the invariant. */
module MemoryRepository {
  import opened Domain
  import opened Accounting
  import opened Calendar
  import opened StoreSpec
  import opened StoreSteps
  import opened StoreInvariant
  import opened ReplanInvariant
  import opened StoreRuns
  import opened RepositoryLoops
  import Sorting

  class MemoryStore {
    var servers: map<Id, Server>
    var machines: map<Id, Id>
    var jobs: map<Id, Job>
    var commands: map<Id, Command>
    const offlineAfter: int

    function Contents(): State
      reads this
    {
      State(servers, machines, jobs, commands, offlineAfter)
    }

    ghost predicate Valid()
      reads this
    {
      StoreSteps.Valid(Contents())
    }

    constructor (offlineAfter: int)
      ensures Valid() && Contents() == Initial(offlineAfter)
    {
      servers, machines, jobs, commands := map[], map[], map[], map[];
      this.offlineAfter := offlineAfter;
      new;
      InitialIsValid(offlineAfter);
    }

    method UpsertServer(incoming: Server) returns (r: Result<Server>)
      requires Valid() && SoundRegistration(Contents(), incoming)
      modifies this
      ensures Valid() && Performs(old(Contents()), UpsertStep(incoming), Contents(), ErrorOf(r))
    {
      hide StoreSteps.Valid, SoundRegistration;
      ghost var before := Contents();
      if incoming.machineId in machines {
        var id := machines[incoming.machineId];
        var existing := if id in servers then servers[id] else ZERO_SERVER;
        if existing.org != incoming.org || (incoming.org != NO_ID && incoming.id != existing.id) {
          return Err(Conflict);
        }
        existing := existing.(caps := incoming.caps, labels := incoming.labels, status := Online,
                              inventoryReceived := ZERO_TIME, version := 0);
        if existing.drained {
          existing := existing.(status := Draining);
        }
        existing := existing.(lastHeartbeat := incoming.lastHeartbeat);
        servers := servers[id := existing];
        r := Ok(existing);
      } else {
        machines := machines[incoming.machineId := incoming.id];
        servers := servers[incoming.id := incoming];
        r := Ok(incoming);
      }
      Performed(before, UpsertStep(incoming), Contents(), ErrorOf(r));
    }

    method Heartbeat(agentId: Id, at: Time) returns (r: Result<Server>)
      requires Valid()
      modifies this`servers
      ensures Valid() && Performs(old(Contents()), HeartbeatStep(agentId, at), Contents(), ErrorOf(r))
    {
      hide StoreSteps.Valid;
      ghost var before := Contents();
      if agentId !in servers {
        return Err(NotFound);
      }
      var server := servers[agentId];
      if server.status == Offline || at - server.lastHeartbeat > offlineAfter {
        server := server.(inventoryReceived := ZERO_TIME);
      }
      server := server.(lastHeartbeat := at);
      if server.drained {
        server := server.(status := Draining);
      } else {
        server := server.(status := Online);
      }
      servers := servers[agentId := server];
      r := Ok(server);
      Performed(before, HeartbeatStep(agentId, at), Contents(), ErrorOf(r));
    }

    method SetServerDrained(serverId: Id, drained: bool) returns (r: Result<Server>)
      requires Valid()
      modifies this`servers
      ensures Valid() && Performs(old(Contents()), DrainStep(serverId, drained), Contents(), ErrorOf(r))
    {
      hide StoreSteps.Valid;
      ghost var before := Contents();
      if serverId !in servers {
        return Err(NotFound);
      }
      var server := servers[serverId].(drained := drained);
      if server.status == Offline {
        // Connectivity is kept apart from the drain configuration.
      } else if drained {
        server := server.(status := Draining);
      } else {
        server := server.(status := Online);
      }
      servers := servers[serverId := server];
      r := Ok(server);
      Performed(before, DrainStep(serverId, drained), Contents(), ErrorOf(r));
    }

    /** Returns how many hosts went offline. */
    method MarkStaleServers(staleBefore: Time) returns (changed: nat)
      requires Valid()
      modifies this`servers
      ensures Valid() && Performs(old(Contents()), MarkStaleStep(staleBefore), Contents(), None)
      ensures changed == |StaleIds(old(servers), staleBefore)|
    {
      hide StoreSteps.Valid, StaleIds;
      ghost var before := Contents();
      changed := MarkStaleLocked(staleBefore);
      Performed(before, MarkStaleStep(staleBefore), Contents(), None);
    }

    method MarkStaleLocked(staleBefore: Time) returns (changed: nat)
      modifies this`servers
      ensures Contents() == StoreSpec.MarkStaleServers(old(Contents()), staleBefore)
      ensures changed == |StaleIds(old(servers), staleBefore)|
    {
      ghost var before := servers;
      changed := 0;
      var todo := servers.Keys;
      ghost var marked: set<Id> := {};
      while todo != {}
        invariant todo <= before.Keys && servers.Keys == before.Keys && changed == |marked|
        invariant forall s :: s in marked <==> s in before && s !in todo && Stale(before[s], staleBefore)
        invariant forall s :: s in before && s in marked ==> servers[s] == before[s].(status := Offline)
        invariant forall s :: s in before && s !in marked ==> servers[s] == before[s]
        decreases todo
      {
        var id := Pick(todo);
        todo := todo - {id};
        var server := servers[id];
        if Stale(server, staleBefore) {
          servers := servers[id := server.(status := Offline)];
          changed := changed + 1;
          marked := marked + {id};
        }
      }
      MarkedIsStale(old(Contents()), servers, marked, staleBefore);
    }

    method CreateJob(job: Job) returns (r: Result<()>)
      requires Valid() && Admitted(job)
      modifies this`jobs
      ensures Valid() && Performs(old(Contents()), CreateStep(job), Contents(), ErrorOf(r))
    {
      hide StoreSteps.Valid, Admitted;
      ghost var before := Contents();
      if job.id in jobs {
        return Err(Conflict);
      }
      jobs := jobs[job.id := job];
      r := Ok(());
      Performed(before, CreateStep(job), Contents(), ErrorOf(r));
    }

    /** Ends the reservation of a job and re-accounts its host in the same critical section. */
    method ReleaseLocked(job: Job, at: Time) returns (released: Job)
      requires WellKeyed(jobs) && Exclusive(jobs) && job.id != NO_ID && job.status.Terminal()
      requires forall s :: s in servers ==> servers[s].id == s
      modifies this`jobs, this`servers
      ensures released == Released(job, at)
      ensures Contents() == Release(old(Contents()), job, at)
    {
      if job.assignment.None? {
        return job;
      }
      released := job.(assignment := Some(job.assignment.value.(state := ReleasedState, releasedAt := Some(at))));
      EndingKeepsExclusive(jobs, released);
      jobs := jobs[job.id := released];
      var serverId := job.assignment.value.serverId;
      if serverId !in servers {
        return;
      }
      var server := servers[serverId];
      var gpus := NormalizeGPUState(server.id, server.gpus, server.containers, [], jobs);
      servers := servers[server.id := server.(gpus := gpus)];
    }

    /** Stores a terminal job together with the end of its reservation. */
    method FinishLocked(job: Job, at: Time)
      requires WellKeyed(jobs) && Exclusive(jobs) && job.id != NO_ID && job.status.Terminal()
      requires forall s :: s in servers ==> servers[s].id == s
      modifies this`jobs, this`servers
      ensures Contents() == Finish(old(Contents()), job, at)
    {
      hide NormalizeGPUs, WellKeyed, Exclusive;
      ghost var before := Contents();
      var released := ReleaseLocked(job, at);
      jobs := jobs[job.id := released];
      FinishIsReleaseThenStore(before, job, at);
    }

    /** The step is performed for any status; the application only fails queued jobs and re-words waiting ones, and
        those keep the invariant. */
    method SetJobStatus(id: Id, status: JobStatus, reason: Reason, at: Time) returns (r: Result<Job>)
      requires Valid()
      modifies this`jobs, this`servers
      ensures Performs(old(Contents()), StatusStep(id, status, reason, at), Contents(), ErrorOf(r))
      ensures status == Failed || status == Assigned ==> Valid()
      ensures r.Ok? ==> id in jobs && r.value == jobs[id]
    {
      hide StoreSteps.Valid, Finish, WellKeyed, Exclusive, Released, Transition, Performs, Outcome;
      ghost var before := Contents();
      ghost var step := StatusStep(id, status, reason, at);
      StatusPerforms(before, step);
      if id !in jobs {
        return Err(NotFound);
      }
      var job := jobs[id];
      if job.status.Terminal() || (status == Queued && job.status != Queued)
         || (status == Failed && job.status != Queued)
         || (status == Assigned && (job.status != Assigned || job.assignment.None?
                                    || job.assignment.value.commandId != NO_ID)) {
        return Ok(job);
      }
      ValidForRelease(before);
      job := Transition(job, status, reason, at);
      TransitionStatus(jobs[id], status, reason, at);
      if status.Terminal() {
        FinishLocked(job, at);
        FinishStores(before, job, at);
      } else {
        jobs := jobs[id := job];
      }
      r := Ok(jobs[id]);
      if status == Failed || status == Assigned {
        Performed(before, step, Contents(), ErrorOf(r));
      }
    }

    method RequestStop(jobId: Id, command: Command, at: Time) returns (r: Result<Job>)
      requires Valid() && NewCommand(command, StopCommand, jobId)
      modifies this`jobs, this`servers, this`commands
      ensures Valid() && Performs(old(Contents()), StopStep(jobId, command, at), Contents(), ErrorOf(r))
    {
      hide StoreSteps.Valid, Finish, WellKeyed, Exclusive, Released, Transition, NewCommand, StopTermination;
      ghost var before := Contents();
      if jobId !in jobs {
        return Err(NotFound);
      }
      var job := jobs[jobId];
      if job.status.Terminal() || job.status == Stopping {
        return Ok(job);
      }
      ValidForRelease(before);
      var termination := RecordTermination(job, at);
      job := job.(termination := termination);
      TransitionStatus(job, Cancelled, CancelledBeforeExecution, at);
      TransitionStatus(job, Cancelled, CancelledBeforeDelivery, at);
      if job.status == Queued {
        jobs := jobs[jobId := Transition(job, Cancelled, CancelledBeforePlacement, at)];
      } else if job.assignment.Some? {
        var start := CommandAt(commands, job.assignment.value.commandId);
        if job.assignment.value.commandId == NO_ID {
          FinishLocked(Transition(job, Cancelled, CancelledBeforeExecution, at), at);
          FinishStores(before, Transition(job, Cancelled, CancelledBeforeExecution, at), at);
        } else if start.status == Pending {
          commands := commands[start.id := start.(status := FailedCommand, completedAt := Some(at))];
          FinishStores(Contents(), Transition(job, Cancelled, CancelledBeforeDelivery, at), at);
          FinishLocked(Transition(job, Cancelled, CancelledBeforeDelivery, at), at);
        } else {
          if command.id in commands {
            return Err(Conflict);
          }
          commands := commands[command.id := command.(agentId := job.assignment.value.serverId)];
          jobs := jobs[jobId := Transition(job, Stopping, StopRequested, at)];
        }
      } else {
        return Err(NotStoppable);
      }
      r := Ok(jobs[jobId]);
      Performed(before, StopStep(jobId, command, at), Contents(), ErrorOf(r));
    }

    /** Applies the first acknowledgement of a command to its job. */
    method ApplyAckLocked(command: Command, ack: Ack, at: Time)
      requires WellKeyed(jobs) && Exclusive(jobs) && forall s :: s in servers ==> servers[s].id == s
      modifies this`jobs, this`servers
      ensures Contents() == ApplyAck(old(Contents()), command, ack, at)
    {
      hide Finish, Exclusive, Released, Transition;
      if command.jobId !in jobs {
        return;
      }
      var job := jobs[command.jobId];
      if job.status.Terminal() || job.assignment.None? || job.assignment.value.serverId != command.agentId {
        return;
      }
      match command.kind {
        case StartCommand =>
          if ack.succeeded {
            job := job.(containerId := ack.containerId);
            if job.status == Assigned {
              job := Transition(job, Starting, StartAcknowledged, at);
            }
          } else if job.status == Assigned || job.status == Starting || job.status == Stopping {
            job := job.(termination := ExecutionError);
            TransitionStatus(job, Failed, LaunchFailed, at);
            FinishLocked(Transition(job, Failed, LaunchFailed, at), at);
            return;
          }
        case StopCommand =>
          if !ack.succeeded && job.status == Stopping {
            job := Transition(job, RunningJob, StopFailed, at);
          }
        case NoCommand =>
      }
      TransitionKeepsId(jobs[command.jobId].(containerId := ack.containerId), Starting, StartAcknowledged, at);
      TransitionKeepsId(jobs[command.jobId], RunningJob, StopFailed, at);
      jobs := jobs[job.id := job];
    }

    method AckCommand(agentId: Id, commandId: Id, ack: Ack, at: Time) returns (r: Result<Command>)
      requires Valid()
      modifies this`jobs, this`servers, this`commands
      ensures Valid() && Performs(old(Contents()), AckStep(agentId, commandId, ack, at), Contents(), ErrorOf(r))
    {
      hide StoreSteps.Valid, Finish, WellKeyed, Exclusive, ApplyAck;
      ghost var before := Contents();
      if commandId !in commands || commands[commandId].agentId != agentId {
        return Err(NotFound);
      }
      var command := commands[commandId];
      if command.status == SucceededCommand || command.status == FailedCommand {
        return Ok(command);
      }
      ValidForRelease(before);
      command := command.(completedAt := Some(at), leaseUntil := None);
      if ack.succeeded {
        command := command.(status := SucceededCommand);
      } else {
        command := command.(status := FailedCommand);
      }
      commands := commands[command.id := command];
      ApplyAckLocked(command, ack, at);
      r := Ok(command);
      Performed(before, AckStep(agentId, commandId, ack, at), Contents(), ErrorOf(r));
    }

    /** Compare-and-swap on the training revision. */
    method UpdateTraining(id: Id, expected: int, next: Training, at: Time) returns (r: Result<Job>)
      requires Valid()
      modifies this`jobs
      ensures Valid() && Performs(old(Contents()), TrainingStep(id, expected, next, at), Contents(), ErrorOf(r))
      ensures r.Ok? ==> id in jobs && r.value == jobs[id]
    {
      hide StoreSteps.Valid;
      ghost var before := Contents();
      if id !in jobs {
        return Err(NotFound);
      }
      var job := jobs[id];
      if job.workload != TrainingWorkload || job.training.revision != expected {
        return Err(Conflict);
      }
      if next.checkpoint == CheckpointRequested && job.training.checkpoint != CheckpointRequested
        && job.status != RunningJob {
        return Err(Conflict);
      }
      var training := next.(resumeURI := job.training.resumeURI, resumeFrom := job.training.resumeFrom,
                            warningAt := job.training.warningAt, revision := expected + 1);
      job := job.(training := training, updatedAt := at);
      jobs := jobs[id := job];
      r := Ok(job);
      Performed(before, TrainingStep(id, expected, next, at), Contents(), ErrorOf(r));
    }

    /** The dispatch of a due booking, or of an untimed job straight from the queue. */
    method CommitAssignment(jobId: Id, placement: Placement, command: Command, at: Time) returns (r: Result<Job>)
      requires Valid() && NewCommand(command, StartCommand, jobId)
      modifies this`jobs, this`servers, this`commands
      ensures Valid() && Performs(old(Contents()), CommitStep(jobId, placement, command, at), Contents(), ErrorOf(r))
    {
      hide StoreSteps.Valid, NewCommand, AllMatch, DistinctIds, Transition, SelectorHolds, Server.Schedulable,
           SameOrganization, TimeWindow.Contains, ReserveGPUs, Performs, Outcome;
      ghost var before := Contents();
      ghost var step := CommitStep(jobId, placement, command, at);
      CommitRefused(before, step);
      if jobId !in jobs {
        return Err(NotFound);
      }
      ValidForRelease(before);
      var job := jobs[jobId];
      var planned := job.assignment.Some? && job.assignment.value.state == PlannedState;
      if planned {
        var a := job.assignment.value;
        if job.status != Assigned || a.commandId != NO_ID || !a.Window().Contains(at)
           || a.serverId != placement.serverId || a.gpus != placement.gpus || command.kind != StartCommand {
          return Err(Conflict);
        }
      } else if job.status != Queued || job.neededAt != Blank || job.ttlSeconds != 0 {
        return Err(Conflict);
      }
      if placement.serverId !in servers {
        return Err(NotFound);
      }
      var server := servers[placement.serverId];
      if !SameOrganization(job.org, server.org) {
        return Err(Conflict);
      }
      if !server.Schedulable(at, offlineAfter) || job.resources.gpuCount <= 0
         || |placement.gpus| != job.resources.gpuCount || command.agentId != server.id {
        return Err(Conflict);
      }
      if command.id in commands {
        return Err(Conflict);
      }
      HardwareIsDistinct(before, placement.serverId);
      var fits := MatchesAll(job, server.gpus, placement.gpus);
      if !fits {
        return Err(Conflict);
      }
      fits := SelectorMatches(job, server);
      if !fits {
        return Err(Conflict);
      }
      // Everything was validated before the first write.
      var gpus := ReserveLoop(server.gpus, placement.gpus, jobId);
      if planned {
        job := job.(assignment := Some(job.assignment.value.(commandId := command.id, state := ReservedState)));
        TransitionKeepsId(job, Starting, DueNow, at);
        job := Transition(job, Starting, DueNow, at);
      } else {
        TransitionKeepsId(job, Assigned, placement.reason, at);
        job := Transition(job, Assigned, placement.reason, at);
        var a := Assignment(ZERO_TIME, ZERO_TIME, placement.serverId, placement.gpus, command.id, at,
                            ReservedState, None, placement.strategy, placement.score, placement.reason);
        job := job.(assignment := Some(a));
      }
      job := job.(policy := placement.policy, updatedAt := at);
      CommitPerformed(before, step, job, gpus);
      servers := servers[server.id := server.(gpus := gpus)];
      jobs := jobs[job.id := job];
      commands := commands[command.id := command];
      r := Ok(job);
      Performed(before, step, Contents(), None);
    }

    /** Compares every launched job of the host with a complete report. The host entry it re-accounts on a release is
        only an intermediate value: the caller overwrites it. */
    method ReconcileLocked(serverId: Id, report: Report)
      requires Valid() && serverId in servers
      modifies this`jobs, this`servers
      ensures jobs == Reconcile(old(jobs), serverId, report, commands)
      ensures forall s :: s in old(servers) && s != serverId ==> s in servers && servers[s] == old(servers)[s]
      ensures servers.Keys == old(servers).Keys
    {
      hide StoreSteps.Valid, ReconcileJob, Exclusive, Reconcile, Release, Observed, Released, PartlyReconciled,
           WellKeyed;
      ghost var before := Contents();
      ValidForRelease(before);
      NothingReconciled(before, serverId, report);
      var byJob := ManagedByJob(report.containers);
      var todo := jobs.Keys;
      while todo != {}
        invariant todo <= before.jobs.Keys && PartlyReconciled(before, jobs, todo, serverId, report)
        invariant servers.Keys == before.servers.Keys && forall s :: s in servers ==> servers[s].id == s
        invariant forall s :: s in servers && s != serverId ==> servers[s] == before.servers[s]
        decreases todo
      {
        var id := Pick(todo);
        MixedStaysExclusive(before, jobs, todo, serverId, report);
        var job, ends := ReconcileOne(jobs[id], byJob, serverId, report, commands);
        ReconciledMore(before, jobs, todo, serverId, report, id,
                       if ends then Released(job, report.receivedAt) else job);
        WriteTwice(jobs, id, Released(job, report.receivedAt), Released(job, report.receivedAt));
        if ends {
          ReleaseTouchesOneHost(Contents(), job, report.receivedAt);
          job := ReleaseLocked(job, report.receivedAt);
        }
        todo := todo - {id};
        jobs := jobs[id := job];
      }
      AllReconciled(before, jobs, serverId, report);
    }

    method ReplaceInventory(agentId: Id, incoming: Report) returns (r: Result<Server>)
      requires Valid() && SoundReport(incoming)
      modifies this`jobs, this`servers
      ensures Valid() && Performs(old(Contents()), InventoryStep(agentId, incoming), Contents(), ErrorOf(r))
    {
      hide StoreSteps.Valid, SoundReport, Reconcile, NormalizeGPUs, Performs, ForeignGPU, Refreshed;
      ghost var before := Contents();
      ghost var step := InventoryStep(agentId, incoming);
      InventoryRefused(before, agentId, incoming);
      if agentId !in servers {
        return Err(NotFound);
      }
      var server := servers[agentId];
      if incoming.sequence <= server.version {
        return Err(StaleInventory);
      }
      var foreign := ReportsForeignGPU(servers, agentId, incoming.gpus);
      ForeignMeans(before, agentId, incoming);
      if foreign {
        return Err(Conflict);
      }
      var report := incoming;
      if report.receivedAt == ZERO_TIME {
        report := report.(receivedAt := report.observedAt);
      }
      server := RefreshHost(server, report);
      if GPUValid(report) && DockerValid(report) {
        ReconcileLocked(agentId, report);
      }
      ReconciledIsExclusive(before, agentId, report);
      if GPUValid(report) {
        var gpus := NormalizeGPUState(agentId, report.gpus, server.containers, report.processes, jobs);
        server := server.(gpus := gpus);
      }
      ghost var reconciled := servers;
      servers := servers[agentId := server];
      InventoryPerformed(before, agentId, incoming, report, jobs, reconciled, server);
      r := Ok(server);
      Performed(before, step, Contents(), ErrorOf(r));
    }

    /** Polled again at delivery: a delayed poll cannot start an expired booking. */
    method StartIsDeliverable(command: Command, now: Time) returns (ok: bool)
      requires Valid()
      ensures ok <==> StartDeliverable(Contents(), command, now)
    {
      hide StoreSteps.Valid, DistinctIds;
      var server := if command.agentId in servers then servers[command.agentId] else ZERO_SERVER;
      if !server.Schedulable(now, offlineAfter) {
        return false;
      }
      if command.jobId !in jobs {
        return false;
      }
      var job := jobs[command.jobId];
      if job.status.Terminal() || job.assignment.None? || job.assignment.value.commandId != command.id
         || !SameOrganization(job.org, server.org) {
        return false;
      }
      var window := job.assignment.value.Window();
      if window.Valid() && !window.Contains(now) {
        return false;
      }
      PlacesAreDistinct(Contents(), command.agentId, command.jobId);
      ok := OwnsAll(job, server.gpus, job.assignment.value.gpus);
    }

    method LeaseCommands(agentId: Id, now: Time, lease: int, limit: int) returns (r: Result<seq<Command>>)
      requires Valid()
      modifies this`commands
      ensures Valid() && Performs(old(Contents()), LeaseStep(agentId, now, lease, limit), Contents(), ErrorOf(r))
      ensures r.Ok? ==> r.value == DeliverAll(LeaseBatch(old(Contents()), agentId, now, limit), now, lease)
    {
      hide StoreSteps.Valid, LeaseBatch, Deliver, Leasable;
      ghost var before := Contents();
      if agentId !in servers {
        return Err(NotFound);
      }
      ValidForRelease(before);
      var eligible := CollectLeasable(agentId, now);
      var sorted := Sorting.Sort(CommandBefore, eligible);
      var n := if limit <= 0 then 10 else limit;
      if |sorted| > n {
        sorted := sorted[..n];
      }
      BatchIsSorted(before, agentId, now, limit, eligible);
      LeaseBatchIsKeyed(before, agentId, now, limit);
      var delivered := DeliverLocked(sorted, now, lease);
      r := Ok(delivered);
      Performed(before, LeaseStep(agentId, now, lease, limit), Contents(), None);
    }

    method CollectLeasable(agentId: Id, now: Time) returns (eligible: seq<Command>)
      requires Valid()
      ensures Sorting.Distinct(eligible)
        && forall c :: c in eligible <==> c in LeasableCommands(Contents(), agentId, now)
    {
      hide StoreSteps.Valid, StartDeliverable, StopDeliverable;
      ValidForRelease(Contents());
      eligible := [];
      var todo := commands.Keys;
      while todo != {}
        invariant todo <= commands.Keys && Sorting.Distinct(eligible)
        invariant forall c :: c in eligible ==>
          c.id in commands && c.id !in todo && commands[c.id] == c && Leasable(Contents(), agentId, c, now)
        invariant forall k :: k in commands && k !in todo && Leasable(Contents(), agentId, commands[k], now) ==>
          commands[k] in eligible
        decreases todo
      {
        var id := Pick(todo);
        todo := todo - {id};
        var command := commands[id];
        if command.agentId != agentId {
          continue;
        }
        if command.kind == StartCommand {
          var deliverable := StartIsDeliverable(command, now);
          if !deliverable { continue; }
        }
        if command.kind == StopCommand && !StopDeliverable(Contents(), command, now) {
          continue;
        }
        if command.status == Pending
           || (command.status == Delivered && command.leaseUntil.Some? && command.leaseUntil.value < now) {
          assert Leasable(Contents(), agentId, command, now);
          eligible := eligible + [command];
        }
      }
    }

    method DeliverLocked(batch: seq<Command>, now: Time, lease: int) returns (delivered: seq<Command>)
      requires forall k :: k in commands ==> commands[k].id == k
      requires forall c :: c in batch ==> c.id in commands && commands[c.id] == c
      requires Sorting.Distinct(batch)
      modifies this`commands
      ensures delivered == DeliverAll(batch, now, lease)
      ensures commands == map k | k in old(commands) ::
        if old(commands)[k] in batch then Deliver(old(commands)[k], now, lease) else old(commands)[k]
    {
      hide Deliver;
      delivered := [];
      ghost var before := commands;
      for i := 0 to |batch|
        invariant commands.Keys == before.Keys && |delivered| == i
        invariant forall k :: 0 <= k < i ==> delivered[k] == Deliver(batch[k], now, lease)
        invariant forall k :: k in before && before[k] in batch[..i] ==> commands[k] == Deliver(before[k], now, lease)
        invariant forall k :: k in before && before[k] !in batch[..i] ==> commands[k] == before[k]
      {
        var command := Deliver(batch[i], now, lease);
        DeliverKeepsId(batch[i], now, lease);
        assert batch[..i + 1] == batch[..i] + [batch[i]];
        commands := commands[command.id := command];
        delivered := delivered + [command];
      }
      assert batch[..|batch|] == batch;
      DeliveredCommands(before, commands, batch, now, lease);
    }

    /** Replaces the undispatched reservations by the planner's answer, all or nothing. Returns how many jobs got a
        new place. */
    method ReplanReservations(at: Time, plan: (seq<Job>, seq<Server>) -> Result<seq<PlanEntry>>)
      returns (r: Result<nat>)
      requires Valid()
      modifies this`jobs
      ensures var before := old(Contents());
        var answer := plan(SnapshotJobs(before), SnapshotServers(before));
        && Valid() && Performs(before, ReplanStep(at, answer), Contents(), ErrorOf(r))
        && (r.Ok? ==> answer.Ok? && Replan(before, at, answer.value).Ok?
                      && r.value == Replan(before, at, answer.value).value.count)
    {
      hide StoreSteps.Valid, EntryValid, PlacedJob, PlaceAll, Job.Replannable, SnapshotJobs, SnapshotServers, Ids,
           NotPlanned;
      ghost var before := Contents();
      var snapshotJobs, jobKeys := Values(jobs);
      var snapshotServers, serverKeys := Values(servers);
      ValidForRelease(before);
      SnapshotsAreSorted(before, snapshotJobs, jobKeys, snapshotServers, serverKeys);
      snapshotJobs := Sorting.Sort(JobIdBefore, snapshotJobs);
      snapshotServers := Sorting.Sort(ServerIdBefore, snapshotServers);
      var answer := plan(snapshotJobs, snapshotServers);
      if answer.Err? {
        return Err(answer.error);
      }
      var plans := answer.value;
      var changed, claimed := ClaimEntries(Contents(), plans, at);
      if !claimed {
        return Err(Conflict);
      }
      var bookings := UnclaimedJobs(snapshotJobs, plans, changed);
      SnapshotHardwareIsDistinct(before);
      var batch := PlaceEntries(Contents(), at, plans, snapshotServers, changed, bookings);
      if batch.Err? {
        return Err(batch.error);
      }
      // Nothing was written before every placement was validated again under the lock.
      jobs := jobs + batch.value.changed;
      r := Ok(batch.value.count);
      Performed(before, ReplanStep(at, answer), Contents(), None);
    }

    /** A detached copy of the state for a durable transaction. */
    method Export() returns (snapshot: State)
      ensures snapshot == Contents()
    {
      snapshot := State(servers, machines, jobs, commands, offlineAfter);
    }

    method Restore(snapshot: State)
      requires snapshot.offlineAfter == offlineAfter
      modifies this
      ensures Contents() == snapshot
    {
      servers, machines, jobs, commands := snapshot.servers, snapshot.machines, snapshot.jobs, snapshot.commands;
    }
  }
}
