/** Safety of the repository over whole runs: any sequence of legal steps, in any interleaving. */
module StoreRuns {
  import opened Domain
  import opened Accounting
  import opened Calendar
  import opened StoreSpec
  import opened StoreSteps
  import opened StoreInvariant
  import opened ReplanInvariant

  function Initial(offlineAfter: int): State {
    State(map[], map[], map[], map[], offlineAfter)
  }

  ghost function Run(st: State, steps: seq<Step>): State {
    if steps == [] then st else Apply(Run(st, steps[..|steps| - 1]), steps[|steps| - 1])
  }

  ghost predicate LegalRun(st: State, steps: seq<Step>) {
    forall i :: 0 <= i < |steps| ==> Legal(Run(st, steps[..i]), steps[i])
  }

  lemma EmptyRun(st: State)
    ensures LegalRun(st, []) && Run(st, []) == st
  {
  }

  lemma RunExtends(st: State, steps: seq<Step>, step: Step)
    requires LegalRun(st, steps) && Legal(Run(st, steps), step)
    ensures LegalRun(st, steps + [step]) && Run(st, steps + [step]) == Apply(Run(st, steps), step)
  {
    hide Legal, Apply;
    var all := steps + [step];
    assert all[..|steps|] == steps;
    assert forall i :: 0 <= i < |steps| ==> all[..i] == steps[..i];
  }

  // ---------------------------------------------------------------- Every step, every run

  lemma StepKeepsValid(st: State, step: Step)
    requires Valid(st) && Legal(st, step)
    ensures Valid(Apply(st, step)) && Progress(st, Apply(st, step))
  {
    hide Valid, Progress, Outcome, Admitted, SoundReport, SoundRegistration, NewCommand;
    match step
    case UpsertStep(incoming) => UpsertKeepsValid(st, incoming);
    case HeartbeatStep(_, _) => HostStatusKeepsValid(st, step);
    case InventoryStep(agentId, report) => InventoryKeepsValid(st, agentId, report);
    case DrainStep(_, _) => HostStatusKeepsValid(st, step);
    case MarkStaleStep(_) => HostStatusKeepsValid(st, step);
    case CreateStep(job) => CreateKeepsValid(st, job);
    case StatusStep(_, _, _, _) => StatusKeepsValid(st, step);
    case ReplanStep(at, answer) => ReplanKeepsValid(st, at, answer);
    case CommitStep(_, _, _, _) => CommitKeepsValid(st, step);
    case StopStep(_, _, _) => StopKeepsValid(st, step);
    case LeaseStep(_, _, _, _) => LeaseKeepsValid(st, step);
    case AckStep(_, _, _, _) => AckKeepsValid(st, step);
    case TrainingStep(id, expected, next, at) => TrainingKeepsValid(st, id, expected, next, at);
    case RestartStep => HostStatusKeepsValid(st, step);
  }

  lemma HostStatusKeepsValid(st: State, step: Step)
    requires Valid(st) && (step.HeartbeatStep? || step.DrainStep? || step.MarkStaleStep? || step.RestartStep?)
    ensures Valid(Apply(st, step)) && Progress(st, Apply(st, step))
  {
    hide Valid, Apply, Progress;
    HostsAreKeyed(st);
    StatusTouchesHosts(st, step);
    ServersOnlyKeepsValid(st, Apply(st, step));
  }

  lemma HostsAreKeyed(st: State)
    requires Valid(st)
    ensures forall s :: s in st.servers ==> st.servers[s].id == s
  {
    hide JobsOk, GPUsUnshared, CommandsOk, Tenants, Exclusive, HeldIsNotFree, CalendarExclusive, ServerOk;
  }

  /** Two states that differ in the status and the receipts of hosts only. */
  ghost predicate HostsTouched(st: State, next: State) {
    && next.jobs == st.jobs && next.commands == st.commands && next.machines == st.machines
    && next.offlineAfter == st.offlineAfter && next.servers.Keys == st.servers.Keys
    && forall s :: s in st.servers ==>
         next.servers[s].id == st.servers[s].id && next.servers[s].org == st.servers[s].org
         && next.servers[s].gpus == st.servers[s].gpus
  }

  lemma StatusTouchesHosts(st: State, step: Step)
    requires step.HeartbeatStep? || step.DrainStep? || step.MarkStaleStep? || step.RestartStep?
    ensures HostsTouched(st, Apply(st, step))
  {
    hide Heartbeat, SetServerDrained, Stale;
    match step
    case HeartbeatStep(agentId, at) => HeartbeatTouches(st, agentId, at);
    case DrainStep(serverId, drained) => DrainTouches(st, serverId, drained);
    case MarkStaleStep(_) =>
    case RestartStep =>
  }

  lemma HeartbeatTouches(st: State, agentId: Id, at: Time)
    ensures Heartbeat(st, agentId, at).Ok? ==> HostsTouched(st, Heartbeat(st, agentId, at).value)
  {
  }

  lemma DrainTouches(st: State, serverId: Id, drained: bool)
    ensures SetServerDrained(st, serverId, drained).Ok? ==>
      HostsTouched(st, SetServerDrained(st, serverId, drained).value)
  {
  }

  lemma {:induction false} RunKeepsValid(st: State, steps: seq<Step>)
    requires Valid(st) && LegalRun(st, steps)
    ensures Valid(Run(st, steps))
  {
    hide Valid, Legal, Apply;
    if steps != [] {
      var front := steps[..|steps| - 1];
      assert forall i :: 0 <= i < |front| ==> front[..i] == steps[..i];
      RunKeepsValid(st, front);
      StepKeepsValid(Run(st, front), steps[|steps| - 1]);
    }
  }

  lemma ReachableIsValid(offlineAfter: int, steps: seq<Step>)
    requires LegalRun(Initial(offlineAfter), steps)
    ensures Valid(Run(Initial(offlineAfter), steps))
  {
    RunKeepsValid(Initial(offlineAfter), steps);
  }

  lemma AdvancesTransitively(j: Job, k: Job, l: Job)
    requires Advances(j, k) && Advances(k, l)
    ensures Advances(j, l)
  {
  }

  lemma ProgressTransitively(st: State, mid: State, next: State)
    requires Progress(st, mid) && Progress(mid, next)
    ensures Progress(st, next)
  {
    forall k | k in st.jobs ensures k in next.jobs && Advances(st.jobs[k], next.jobs[k]) {
      AdvancesTransitively(st.jobs[k], mid.jobs[k], next.jobs[k]);
    }
  }

  /** From any point of a run to its end, jobs advance and commands keep their identity. */
  lemma {:induction false} RunProgresses(st: State, steps: seq<Step>, from: nat)
    requires Valid(st) && LegalRun(st, steps) && from <= |steps|
    ensures Progress(Run(st, steps[..from]), Run(st, steps))
    decreases |steps| - from
  {
    hide Valid, Legal, Apply, Progress;
    PrefixIsLegal(st, steps, from);
    RunKeepsValid(st, steps[..from]);
    if from == |steps| {
      assert steps[..from] == steps;
      NothingProgresses(Run(st, steps));
    } else {
      assert steps[..from + 1][..from] == steps[..from];
      StepKeepsValid(Run(st, steps[..from]), steps[from]);
      RunProgresses(st, steps, from + 1);
      ProgressTransitively(Run(st, steps[..from]), Run(st, steps[..from + 1]), Run(st, steps));
    }
  }

  lemma NothingProgresses(st: State)
    requires Valid(st)
    ensures Progress(st, st)
  {
    UnchangedKeepsValid(st);
  }

  lemma PrefixIsLegal(st: State, steps: seq<Step>, n: nat)
    requires LegalRun(st, steps) && n <= |steps|
    ensures LegalRun(st, steps[..n])
  {
    assert forall i :: 0 <= i < n ==> steps[..n][..i] == steps[..i];
  }

  // ---------------------------------------------------------------- Exclusivity in every reachable state

  /** Two live dispatched jobs on one host hold disjoint GPUs, and a held GPU is never free: kept by partial
      inventory, release of another job, re-registration, restart and the untimed commit alike. */
  lemma PhysicalExclusivity(offlineAfter: int, steps: seq<Step>, i: Id, j: Id)
    requires LegalRun(Initial(offlineAfter), steps)
    requires i in Run(Initial(offlineAfter), steps).jobs && j in Run(Initial(offlineAfter), steps).jobs && i != j
    ensures var st := Run(Initial(offlineAfter), steps);
      Dispatched(st.jobs[i]) ==>
        var a := st.jobs[i].assignment.value;
        && a.serverId in st.servers
        && (forall g :: g in st.servers[a.serverId].gpus && g.uuid in a.gpus ==> g.state != Free)
        && (Dispatched(st.jobs[j]) && st.jobs[j].assignment.value.serverId == a.serverId ==>
              forall u :: u in a.gpus ==> u !in st.jobs[j].assignment.value.gpus)
  {
    ReachableIsValid(offlineAfter, steps);
    var st := Run(Initial(offlineAfter), steps);
    hide JobsOk, GPUsUnshared, CommandsOk, CalendarExclusive, ServersOk, Run, LegalRun;
    if Dispatched(st.jobs[i]) {
      var a := st.jobs[i].assignment.value;
      assert Tenant(st.servers, st.jobs[i]);
      assert GPUsAccounted(a.serverId, st.servers[a.serverId].gpus, st.jobs);
      assert forall u :: u in a.gpus ==> Holds(st.jobs[i], a.serverId, u);
    }
  }

  /** At any instant at most one live job's booked window covers a given GPU. */
  lemma OneBookingPerInstant(offlineAfter: int, steps: seq<Step>, i: Id, j: Id, serverId: Id, uuid: Id, at: Time)
    requires LegalRun(Initial(offlineAfter), steps)
    requires var st := Run(Initial(offlineAfter), steps);
      i in st.jobs && j in st.jobs && Books(st.jobs[i], serverId, uuid) && Books(st.jobs[j], serverId, uuid)
      && st.jobs[i].assignment.value.Window().Contains(at) && st.jobs[j].assignment.value.Window().Contains(at)
    ensures i == j
  {
    ReachableIsValid(offlineAfter, steps);
    hide JobsOk, GPUsUnshared, CommandsOk, ServersOk, Run, LegalRun, Exclusive, HeldIsNotFree, Tenants, Books;
  }

  /** A commit looks at no job but its own: it is the planned booking that respects the calendar. An untimed commit
      therefore obeys physical exclusivity only, whatever others have booked. */
  lemma CommitReadsOneJob(st: State, other: State, job: Id, p: Placement, command: Command, at: Time)
    requires other == st.(jobs := other.jobs) && job in st.jobs && job in other.jobs && other.jobs[job] == st.jobs[job]
    ensures CommitAssignment(st, job, p, command, at).Ok? == CommitAssignment(other, job, p, command, at).Ok?
    ensures CommitAssignment(st, job, p, command, at).Ok? && st.jobs[job].id == job ==>
      CommitAssignment(st, job, p, command, at).value.jobs[job]
        == CommitAssignment(other, job, p, command, at).value.jobs[job]
  {
    hide PlacementMatches, Dispatchable, CommittedJob;
    CommittedKeepsId(st.jobs[job], p, command, at);
  }

  lemma CommittedKeepsId(job: Job, p: Placement, command: Command, at: Time)
    ensures CommittedJob(job, p, command, at).id == job.id
  {
  }

  // ---------------------------------------------------------------- One launch, one life

  lemma OneStart(st: State, c: Id)
    requires Valid(st) && c in st.commands && st.commands[c].kind == StartCommand
    ensures var job := st.commands[c].jobId;
      && c != NO_ID && job in st.jobs && st.jobs[job].assignment.Some? && st.jobs[job].assignment.value.commandId == c
      && (forall d :: d in st.commands && st.commands[d].kind == StartCommand && st.commands[d].jobId == job ==> d == c)
  {
    hide JobsOk, GPUsUnshared, ServersOk, Exclusive, HeldIsNotFree, Tenants, CalendarExclusive, LaunchOk;
    assert CommandOk(st.jobs, st.commands, st.commands[c]);
    forall d | d in st.commands && st.commands[d].kind == StartCommand && st.commands[d].jobId == st.commands[c].jobId
      ensures d == c
    {
      assert CommandOk(st.jobs, st.commands, st.commands[d]);
    }
  }

  /** A job never has two START commands: the only one is named by its assignment. Commands are never
      removed, so this bounds the STARTs created over the whole run. */
  lemma SingleLaunch(offlineAfter: int, steps: seq<Step>, c: Id, at: nat)
    requires LegalRun(Initial(offlineAfter), steps) && at <= |steps|
    requires var earlier := Run(Initial(offlineAfter), steps[..at]);
      c in earlier.commands && earlier.commands[c].kind == StartCommand
    ensures var earlier, st := Run(Initial(offlineAfter), steps[..at]), Run(Initial(offlineAfter), steps);
      var job := earlier.commands[c].jobId;
      && c in st.commands && st.commands[c].kind == StartCommand && st.commands[c].jobId == job
      && job in st.jobs && st.jobs[job].assignment.Some? && st.jobs[job].assignment.value.commandId == c
      && (forall d :: d in st.commands && st.commands[d].kind == StartCommand && st.commands[d].jobId == job ==> d == c)
  {
    hide Valid, Run, LegalRun, Advances, Initial;
    InitialIsValid(offlineAfter);
    ReachableIsValid(offlineAfter, steps);
    RunProgresses(Initial(offlineAfter), steps, at);
    OneStart(Run(Initial(offlineAfter), steps), c);
  }

  lemma InitialIsValid(offlineAfter: int)
    ensures Valid(Initial(offlineAfter))
  {
  }

  /** Terminal states absorb, and a launched job keeps its place and never returns to the queue. */
  predicate LivesOn(j: Job, k: Job) {
    && (j.status.Terminal() ==> k == j.(training := k.training, updatedAt := k.updatedAt))
    && (Launched(j) ==> Launched(k) && k.status != Queued
                        && k.assignment.value.commandId == j.assignment.value.commandId
                        && k.assignment.value.serverId == j.assignment.value.serverId
                        && k.assignment.value.gpus == j.assignment.value.gpus
                        && k.assignment.value.Window() == j.assignment.value.Window())
    && j.events <= k.events
  }

  lemma AdvancingLivesOn(j: Job, k: Job)
    requires Advances(j, k) && JobOk(k)
    ensures LivesOn(j, k) && LogMatches(k)
    ensures k.assignment.Some? ==> (k.assignment.value.state == ReleasedState <==> k.status.Terminal())
  {
  }

  lemma JobsAreOk(st: State, id: Id)
    requires Valid(st) && id in st.jobs
    ensures JobOk(st.jobs[id]) && st.jobs[id].id == id != NO_ID
  {
  }

  /** Over any run: jobs live on, the log only grows and ends in the current status, and a reservation is
      released exactly when its job is terminal. */
  lemma Lifecycle(offlineAfter: int, steps: seq<Step>, at: nat, id: Id)
    requires LegalRun(Initial(offlineAfter), steps) && at <= |steps|
    requires id in Run(Initial(offlineAfter), steps[..at]).jobs
    ensures id in Run(Initial(offlineAfter), steps).jobs
    ensures var j, k := Run(Initial(offlineAfter), steps[..at]).jobs[id], Run(Initial(offlineAfter), steps).jobs[id];
      LivesOn(j, k) && LogMatches(k)
      && (k.assignment.Some? ==> (k.assignment.value.state == ReleasedState <==> k.status.Terminal()))
  {
    hide Valid, Run, LegalRun, Advances, Initial, JobOk, LivesOn, LogMatches;
    InitialIsValid(offlineAfter);
    ReachableIsValid(offlineAfter, steps);
    RunProgresses(Initial(offlineAfter), steps, at);
    JobsAreOk(Run(Initial(offlineAfter), steps), id);
    AdvancingLivesOn(Run(Initial(offlineAfter), steps[..at]).jobs[id], Run(Initial(offlineAfter), steps).jobs[id]);
  }
}
