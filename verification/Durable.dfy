/** Crash-safe persistence around the in-memory repository: every call either reaches memory and disk together or
  leaves both as they were, and a crash at any point recovers the last committed jobs and commands. */
module Durable {
  import opened Domain
  import opened Accounting
  import opened StoreSpec
  import opened StoreSteps
  import opened StoreRuns
  import opened CommandProtocol
  import opened RepositoryLoops
  import opened MemoryRepository

  /** What the process holds and what a new process would find. */
  datatype Image = Image(memory: State, disk: Option<State>)

  /** A call whose snapshot could be saved or not, or the death of the process followed by a restart. */
  datatype Event = Call(step: Step, saved: bool) | Crash

  /** A new process, with the off-line timeout it was started with: nothing on disk is a new repository, anything else
      must prove its hosts again. */
  function Recovered(disk: Option<State>, offlineAfter: int): State {
    match disk
    case None => Initial(offlineAfter)
    case Some(snapshot) => Restart(snapshot.(offlineAfter := offlineAfter))
  }

  ghost function After(image: Image, event: Event): Image {
    match event
    case Crash => image.(memory := Recovered(image.disk, image.memory.offlineAfter))
    case Call(step, saved) =>
      if saved && Outcome(image.memory, step).Ok?
      then Image(Apply(image.memory, step), Some(Apply(image.memory, step)))
      else image
  }

  /** Memory is the committed state, up to the hosts a restart has put off line. */
  ghost predicate Synced(image: Image) {
    match image.disk
    case None => image.memory == Initial(image.memory.offlineAfter)
    case Some(snapshot) =>
      var kept := snapshot.(offlineAfter := image.memory.offlineAfter);
      image.memory == kept || image.memory == Restart(kept)
  }

  // ---------------------------------------------------------------- The wrapper

  class DurableStore {
    const core: MemoryStore
    var disk: Option<State>

    ghost predicate Valid()
      reads this, core
    {
      core.Valid() && Synced(Contents())
    }

    ghost function Contents(): Image
      reads this, core
    {
      Image(core.Contents(), disk)
    }

    /** Opens the state a previous process left behind. */
    constructor (disk: Option<State>, offlineAfter: int)
      requires disk.Some? ==> StoreSteps.Valid(disk.value)
      ensures Valid() && fresh(core)
      ensures Contents() == Image(Recovered(disk, offlineAfter), disk)
    {
      core := new MemoryStore(offlineAfter);
      this.disk := disk;
      new;
      if disk.Some? {
        var servers := Quarantine(disk.value.servers);
        core.Restore(disk.value.(servers := servers, offlineAfter := offlineAfter));
        TimeoutIsFree(disk.value, offlineAfter);
        RestartKeepsValid(disk.value.(offlineAfter := offlineAfter));
      }
    }

    /** Runs one repository operation as a transaction: export, mutate, save; roll back when either fails. */
    method Transact(step: Step, saved: bool) returns (error: Option<Error>)
      requires Valid() && Legal(core.Contents(), step) && !step.RestartStep?
      modifies this, core
      ensures Valid()
      ensures Contents() == After(old(Contents()), Call(step, saved))
      ensures error.None? <==> saved && Outcome(old(core.Contents()), step).Ok?
      ensures error.Some? ==> Contents() == old(Contents())
      ensures old(disk) == Some(old(core.Contents())) ==> disk == Some(core.Contents())
    {
      hide StoreSteps.Valid, Legal, Outcome;
      ghost var before := core.Contents();
      var snapshot := core.Export();
      error := Run(step);
      if error.Some? {
        core.Restore(snapshot);
        return;
      }
      if !saved {
        core.Restore(snapshot);
        return Some(SaveFailed);
      }
      disk := Some(core.Contents());
    }

    method Run(step: Step) returns (error: Option<Error>)
      requires core.Valid() && Legal(core.Contents(), step) && !step.RestartStep?
      modifies core
      ensures core.Valid() && Performs(old(core.Contents()), step, core.Contents(), error)
    {
      hide StoreSteps.Valid, Outcome, SoundRegistration, SoundReport, Admitted, NewCommand;
      match step
      case UpsertStep(incoming) =>
        var r := core.UpsertServer(incoming);
        error := ErrorOf(r);
      case HeartbeatStep(agentId, at) =>
        var r := core.Heartbeat(agentId, at);
        error := ErrorOf(r);
      case InventoryStep(agentId, report) =>
        var r := core.ReplaceInventory(agentId, report);
        error := ErrorOf(r);
      case DrainStep(serverId, drained) =>
        var r := core.SetServerDrained(serverId, drained);
        error := ErrorOf(r);
      case MarkStaleStep(before) =>
        var n := core.MarkStaleServers(before);
        error := None;
      case CreateStep(job) =>
        var r := core.CreateJob(job);
        error := ErrorOf(r);
      case StatusStep(jobId, status, reason, at) =>
        var r := core.SetJobStatus(jobId, status, reason, at);
        error := ErrorOf(r);
      case ReplanStep(at, answer) =>
        var r := core.ReplanReservations(at, (jobs, servers) => answer);
        error := ErrorOf(r);
      case CommitStep(jobId, placement, command, at) =>
        var r := core.CommitAssignment(jobId, placement, command, at);
        error := ErrorOf(r);
      case StopStep(jobId, command, at) =>
        var r := core.RequestStop(jobId, command, at);
        error := ErrorOf(r);
      case LeaseStep(agentId, at, lease, limit) =>
        var r := core.LeaseCommands(agentId, at, lease, limit);
        error := ErrorOf(r);
      case AckStep(agentId, commandId, ack, at) =>
        var r := core.AckCommand(agentId, commandId, ack, at);
        error := ErrorOf(r);
      case TrainingStep(jobId, expected, next, at) =>
        var r := core.UpdateTraining(jobId, expected, next, at);
        error := ErrorOf(r);
    }
  }

  /** The invariant does not depend on the off-line timeout. */
  lemma TimeoutIsFree(st: State, offlineAfter: int)
    requires StoreSteps.Valid(st)
    ensures StoreSteps.Valid(st.(offlineAfter := offlineAfter))
  {
    hide JobsOk, GPUsUnshared, CommandsOk, Exclusive, CalendarExclusive, ServerOk, GPUsAccounted, Tenant;
  }

  /** No host of a loaded snapshot is trusted before its next inventory. */
  method Quarantine(loaded: map<Id, Server>) returns (servers: map<Id, Server>)
    ensures forall st: State :: st.servers == loaded ==> st.(servers := servers) == Restart(st)
  {
    servers := loaded;
    var todo := loaded.Keys;
    while todo != {}
      invariant todo <= loaded.Keys && servers.Keys == loaded.Keys
      invariant forall s :: s in servers && s in todo ==> servers[s] == loaded[s]
      invariant forall s :: s in servers && s !in todo ==>
        servers[s] == loaded[s].(status := Offline, inventoryReceived := ZERO_TIME)
      decreases todo
    {
      var id := Pick(todo);
      todo := todo - {id};
      servers := servers[id := servers[id].(status := Offline, inventoryReceived := ZERO_TIME)];
    }
    QuarantinedServers(loaded, servers);
  }

  lemma QuarantinedState(st: State, servers: map<Id, Server>)
    requires servers.Keys == st.servers.Keys
    requires forall s :: s in servers ==>
      servers[s] == st.servers[s].(status := Offline, inventoryReceived := ZERO_TIME)
    ensures st.(servers := servers) == Restart(st)
  {
    var spec := Restart(st).servers;
    assert servers.Keys == spec.Keys;
    assert forall s :: s in spec ==> servers[s] == spec[s];
    assert servers == spec;
  }

  lemma QuarantinedServers(loaded: map<Id, Server>, servers: map<Id, Server>)
    requires servers.Keys == loaded.Keys
    requires forall s :: s in servers ==> servers[s] == loaded[s].(status := Offline, inventoryReceived := ZERO_TIME)
    ensures forall st: State :: st.servers == loaded ==> st.(servers := servers) == Restart(st)
  {
    forall st: State | st.servers == loaded ensures st.(servers := servers) == Restart(st) {
      QuarantinedState(st, servers);
    }
  }

  // ---------------------------------------------------------------- Runs with crashes

  ghost function RunEvents(image: Image, events: seq<Event>): Image {
    if events == [] then image else After(RunEvents(image, events[..|events| - 1]), events[|events| - 1])
  }

  /** The repository steps that took effect: committed calls, and a restart for every crash. */
  ghost function Effective(image: Image, events: seq<Event>): seq<Step> {
    if events == [] then []
    else
      var front, last := events[..|events| - 1], events[|events| - 1];
      var before := Effective(image, front);
      match last
      case Crash => before + [RestartStep]
      case Call(step, saved) =>
        if saved && Outcome(RunEvents(image, front).memory, step).Ok? then before + [step] else before
  }

  ghost predicate LegalEvents(image: Image, events: seq<Event>) {
    forall i :: 0 <= i < |events| && events[i].Call? ==> Legal(RunEvents(image, events[..i]).memory, events[i].step)
  }

  function Empty(offlineAfter: int): Image {
    Image(Initial(offlineAfter), None)
  }

  lemma RestartTwice(st: State)
    ensures Restart(Restart(st)) == Restart(st)
    ensures Restart(st).jobs == st.jobs && Restart(st).commands == st.commands
      && Restart(st).offlineAfter == st.offlineAfter
  {
  }

  lemma RestartInitial(offlineAfter: int)
    ensures Restart(Initial(offlineAfter)) == Initial(offlineAfter)
  {
    assert Restart(Initial(offlineAfter)).servers == map[];
  }

  lemma CrashRestarts(image: Image)
    requires Synced(image)
    ensures After(image, Crash).memory == Restart(image.memory)
    ensures Synced(After(image, Crash)) && After(image, Crash).disk == image.disk
  {
    RestartInitial(image.memory.offlineAfter);
    match image.disk
    case None =>
    case Some(snapshot) => RestartTwice(snapshot.(offlineAfter := image.memory.offlineAfter));
  }

  /** Whatever the interleaving of calls, failed saves and crashes, memory is always what the effective steps alone
      would have produced, so everything proved of runs holds of it, and disk is the last committed state. */
  lemma {:induction false} CrashesAreRestarts(offlineAfter: int, events: seq<Event>)
    requires LegalEvents(Empty(offlineAfter), events)
    ensures var image, steps := RunEvents(Empty(offlineAfter), events), Effective(Empty(offlineAfter), events);
      && LegalRun(Initial(offlineAfter), steps) && image.memory == Run(Initial(offlineAfter), steps)
      && Synced(image)
  {
    hide Legal, Apply, Outcome, Initial, Run, LegalRun, Synced;
    if events == [] {
      NothingHappened(offlineAfter);
    } else {
      var front, last := events[..|events| - 1], events[|events| - 1];
      FrontIsLegal(Empty(offlineAfter), events);
      CrashesAreRestarts(offlineAfter, front);
      var before, steps := RunEvents(Empty(offlineAfter), front), Effective(Empty(offlineAfter), front);
      match last
      case Crash =>
        CrashRestarts(before);
        RestartIsLegal(before.memory);
        RunExtends(Initial(offlineAfter), steps, RestartStep);
      case Call(step, saved) =>
        if saved && Outcome(before.memory, step).Ok? {
          RunExtends(Initial(offlineAfter), steps, step);
          CommittedIsSynced(Apply(before.memory, step));
        }
    }
  }

  lemma NothingHappened(offlineAfter: int)
    ensures LegalRun(Initial(offlineAfter), []) && Run(Initial(offlineAfter), []) == Initial(offlineAfter)
      && Synced(Empty(offlineAfter))
  {
  }

  lemma CommittedIsSynced(st: State)
    ensures Synced(Image(st, Some(st)))
  {
  }

  lemma RestartIsLegal(st: State)
    ensures Legal(st, RestartStep) && Apply(st, RestartStep) == Restart(st)
  {
  }

  lemma FrontIsLegal(image: Image, events: seq<Event>)
    requires LegalEvents(image, events) && events != []
    ensures LegalEvents(image, events[..|events| - 1])
    ensures events[|events| - 1].Call? ==>
      Legal(RunEvents(image, events[..|events| - 1]).memory, events[|events| - 1].step)
  {
    hide Legal, After;
    var front := events[..|events| - 1];
    assert forall i :: 0 <= i < |front| ==> front[..i] == events[..i];
  }

  /** Right after a restart following any history: the invariant holds, and jobs and commands are those on disk. */
  lemma RecoveryIsExact(offlineAfter: int, events: seq<Event>)
    requires LegalEvents(Empty(offlineAfter), events)
    ensures var image := RunEvents(Empty(offlineAfter), events);
      var next := After(image, Crash);
      && StoreSteps.Valid(next.memory) && next.disk == image.disk
      && next.memory.jobs == image.memory.jobs && next.memory.commands == image.memory.commands
      && (image.disk.Some? ==> next.memory.jobs == image.disk.value.jobs
                               && next.memory.commands == image.disk.value.commands)
      && (image.disk.None? ==> next.memory.jobs == map[] && next.memory.commands == map[])
      && (forall s :: s in next.memory.servers ==> next.memory.servers[s].inventoryReceived == ZERO_TIME)
  {
    hide StoreSteps.Valid, Run, LegalRun, Legal, RunEvents;
    CrashesAreRestarts(offlineAfter, events);
    ReachableIsValid(offlineAfter, Effective(Empty(offlineAfter), events));
    var image := RunEvents(Empty(offlineAfter), events);
    CrashRestarts(image);
    RestartKeepsValid(image.memory);
    RestartTwice(image.memory);
    if image.disk.Some? { RestartTwice(image.disk.value); }
  }

  /** After the restart nothing starts on a host until its next complete inventory is accepted. */
  lemma RecoveryQuarantines(offlineAfter: int, events: seq<Event>, steps: seq<Step>, s: Id, at: Time)
    requires LegalEvents(Empty(offlineAfter), events)
    requires var next := After(RunEvents(Empty(offlineAfter), events), Crash).memory;
      && s in next.servers && LegalRun(next, steps)
      && forall i :: 0 <= i < |steps| ==> !FullInventory(Run(next, steps[..i]), steps[i], s)
    ensures var later := Run(After(RunEvents(Empty(offlineAfter), events), Crash).memory, steps);
      && (forall c :: c in later.commands && later.commands[c].kind == StartCommand ==>
              !Leasable(later, s, later.commands[c], at))
      && (forall job, p: Placement, command, t :: p.serverId == s ==> CommitAssignment(later, job, p, command, t).Err?)
  {
    hide StoreSteps.Valid, Run, LegalRun, Legal, RunEvents, Leasable, FullInventory, CommitAssignment;
    CrashesAreRestarts(offlineAfter, events);
    ReachableIsValid(offlineAfter, Effective(Empty(offlineAfter), events));
    var image := RunEvents(Empty(offlineAfter), events);
    CrashRestarts(image);
    RestartQuarantines(image.memory, steps, s, at);
  }
}
