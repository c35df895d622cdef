/** When a host may be used: what takes its inventory out of trust, what brings it back, and that draining holds. */
module HostReadiness {
  import opened Domain
  import opened Accounting
  import opened StoreSpec
  import opened StoreSteps
  import opened StoreInvariant
  import opened ReplanInvariant
  import opened StoreRuns
  import opened StepEffects
  import opened Occupancy
  import opened CommandProtocol

  // ---------------------------------------------------------------- Losing trust

  /** What puts a host in quarantine: registering again, a heartbeat after a silence or while off line, a report that
      misses one of its two sources, and a restart of the control plane. */
  ghost predicate Distrusts(st: State, step: Step, s: Id) {
    match step
    case UpsertStep(incoming) => incoming.machineId in st.machines && st.machines[incoming.machineId] == s
      && Outcome(st, step).Ok?
    case HeartbeatStep(agentId, at) =>
      agentId == s && s in st.servers
        && (st.servers[s].status == Offline || at - st.servers[s].lastHeartbeat > st.offlineAfter)
    case InventoryStep(agentId, report) => agentId == s && !Complete(report) && Outcome(st, step).Ok?
    case RestartStep => true
    case _ => false
  }

  lemma DistrustQuarantines(st: State, step: Step, s: Id)
    requires Valid(st) && Legal(st, step) && s in st.servers && Distrusts(st, step, s)
    ensures s in Apply(st, step).servers && Apply(st, step).servers[s].inventoryReceived == ZERO_TIME
  {
    hide JobsOk, GPUsUnshared, CommandsOk, Tenants, Exclusive, HeldIsNotFree, CalendarExclusive, NormalizeGPUs,
         Reconcile, ForeignGPU,
         ServerOk, SoundReport;
  }

  /** From any such step on, in any run, nothing is launched on the host before its next complete inventory: no START
      is handed to it and no commit is accepted on it. */
  lemma DistrustedUntilInventory(st: State, step: Step, steps: seq<Step>, s: Id, at: Time)
    requires Valid(st) && Legal(st, step) && s in st.servers && Distrusts(st, step, s)
    requires LegalRun(Apply(st, step), steps)
    requires forall i :: 0 <= i < |steps| ==> !FullInventory(Run(Apply(st, step), steps[..i]), steps[i], s)
    ensures var later := Run(Apply(st, step), steps);
      && (forall c :: c in later.commands && later.commands[c].kind == StartCommand ==>
              !Leasable(later, s, later.commands[c], at))
      && (forall job, p: Placement, command, t :: p.serverId == s ==> CommitAssignment(later, job, p, command, t).Err?)
  {
    hide Valid, Legal, FullInventory, Leasable, CommitAssignment, Run, LegalRun, Apply, Distrusts, Progress;
    DistrustQuarantines(st, step, s);
    StepKeepsValid(st, step);
    QuarantineLasts(Apply(st, step), steps, s);
    QuarantinedHostGetsNothing(Run(Apply(st, step), steps), s, at);
  }

  // ---------------------------------------------------------------- What a launch needs

  /** Ready, on line, undrained, and heard from within the off-line timeout. */
  predicate Fresh(server: Server, at: Time, offlineAfter: int) {
    server.caps.Some? && server.caps.value.ready && server.status == Online && !server.drained
      && server.inventoryReceived != ZERO_TIME
    && server.lastHeartbeat >= at - offlineAfter && server.inventoryReceived >= at - offlineAfter
  }

  /** Step `i` commits a START to the host, or hands one out there. */
  ghost predicate Launches(st: State, steps: seq<Step>, i: nat, s: Id) {
    i < |steps| && s in Run(st, steps[..i]).servers
    && ((steps[i].CommitStep? && steps[i].placement.serverId == s && Outcome(Run(st, steps[..i]), steps[i]).Ok?)
        || (steps[i].LeaseStep? && steps[i].agentId == s && exists job :: Leases(st, steps, i, StartCommand, job)))
  }

  function MomentOf(step: Step): Time
    requires step.CommitStep? || step.LeaseStep?
  {
    step.at
  }

  lemma LaunchNeedsFreshHost(st: State, s: Id, at: Time)
    requires s in st.servers && st.servers[s].id == s
    ensures forall job, p: Placement, command ::
      CommitAssignment(st, job, p, command, at).Ok? && p.serverId == s ==> Fresh(st.servers[s], at, st.offlineAfter)
    ensures forall c: Command ::
      c.kind == StartCommand && Leasable(st, s, c, at) ==> Fresh(st.servers[s], at, st.offlineAfter)
  {
    hide PlacementMatches, Dispatchable, CommittedJob;
  }

  lemma KeyedHost(st: State, s: Id)
    requires Valid(st) && s in st.servers
    ensures st.servers[s].id == s
  {
    hide JobsOk, GPUsUnshared, CommandsOk, Tenants, Exclusive, HeldIsNotFree, CalendarExclusive, ServerOk;
  }

  /** Whenever a START is committed to a host or handed out there, the host is ready and undrained at that moment, and
      the last inventory the repository accepted from it was complete and is no older than the off-line timeout. */
  lemma LaunchNeedsFreshReport(offlineAfter: int, steps: seq<Step>, i: nat, s: Id)
    requires LegalRun(Initial(offlineAfter), steps) && Launches(Initial(offlineAfter), steps, i, s)
    ensures var st, report := Run(Initial(offlineAfter), steps[..i]), LastReport(Initial(offlineAfter), steps[..i], s);
      && Fresh(st.servers[s], MomentOf(steps[i]), st.offlineAfter)
      && report.Some? && Complete(report.value)
      && MomentOf(steps[i]) - report.value.receivedAt <= st.offlineAfter
      && st.servers[s].containers == report.value.containers
  {
    hide Run, LegalRun, Valid, Fresh, Leasable, CommitAssignment, Vouches, Initial, LastReport;
    var init, st := Initial(offlineAfter), Run(Initial(offlineAfter), steps[..i]);
    InitialIsValid(offlineAfter);
    NoHostsAtFirst(offlineAfter);
    PrefixIsLegal(init, steps, i);
    ReachableIsValid(offlineAfter, steps[..i]);
    RunVouches(init, steps[..i], s);
    KeyedHost(st, s);
    LaunchNeedsFreshHost(st, s, MomentOf(steps[i]));
    if steps[i].LeaseStep? {
      var job :| Leases(init, steps, i, StartCommand, job);
      var id := LeasedCommand(init, steps, i, StartCommand, job);
    }
    FreshIsVouched(st.servers[s], MomentOf(steps[i]), st.offlineAfter, LastReport(init, steps[..i], s));
  }

  lemma NoHostsAtFirst(offlineAfter: int)
    ensures Initial(offlineAfter).servers == map[]
  {
  }

  lemma FreshIsVouched(server: Server, at: Time, offlineAfter: int, report: Option<Report>)
    requires Fresh(server, at, offlineAfter) && Vouches(server, report)
    ensures report.Some? && Complete(report.value) && at - report.value.receivedAt <= offlineAfter
    ensures server.containers == report.value.containers
  {
    hide Remembers;
  }

  // ---------------------------------------------------------------- Draining

  lemma EndingKeepsDrained(st: State, step: Step, s: Id)
    requires Valid(st) && (step.StopStep? || step.StatusStep? || step.AckStep?) && s in st.servers
    ensures s in Apply(st, step).servers && Apply(st, step).servers[s].drained == st.servers[s].drained
  {
    hide Valid, Apply, NormalizeGPUs;
    EndingReaccounts(st, step);
  }

  lemma CommitKeepsDrained(st: State, step: Step, s: Id)
    requires ServersOk(st) && step.CommitStep? && s in st.servers
    ensures s in Apply(st, step).servers && Apply(st, step).servers[s].drained == st.servers[s].drained
  {
    hide PlacementMatches, CommittedJob, ReserveGPUs, ServerOk, Dispatchable;
  }

  /** Only the administrator's own call drains or undrains a host. */
  lemma StepKeepsDrained(st: State, step: Step, s: Id)
    requires Valid(st) && Legal(st, step) && s in st.servers && !(step.DrainStep? && step.serverId == s)
    ensures s in Apply(st, step).servers && Apply(st, step).servers[s].drained == st.servers[s].drained
  {
    hide JobsOk, GPUsUnshared, CommandsOk, Tenants, Exclusive, HeldIsNotFree, CalendarExclusive, NormalizeGPUs,
         Reconcile, ForeignGPU, ServerOk,
         SoundReport, SetJobStatus, RequestStop, AckCommand, CommitAssignment, LeaseBatch, Replan, NewCommand, Admitted;
    match step
    case StatusStep(_, _, _, _) => EndingKeepsDrained(st, step, s);
    case StopStep(_, _, _) => EndingKeepsDrained(st, step, s);
    case AckStep(_, _, _, _) => EndingKeepsDrained(st, step, s);
    case CommitStep(_, _, _, _) => CommitKeepsDrained(st, step, s);
    case _ =>
  }

  lemma {:induction false} DrainLasts(st: State, steps: seq<Step>, s: Id)
    requires Valid(st) && LegalRun(st, steps) && s in st.servers && st.servers[s].drained
    requires forall i :: 0 <= i < |steps| ==> !(steps[i].DrainStep? && steps[i].serverId == s)
    ensures s in Run(st, steps).servers && Run(st, steps).servers[s].drained
  {
    hide Valid, Legal, Apply;
    if steps != [] {
      var front := steps[..|steps| - 1];
      PrefixIsLegal(st, steps, |front|);
      RunKeepsValid(st, front);
      DrainLasts(st, front, s);
      StepKeepsDrained(Run(st, front), steps[|front|], s);
    }
  }

  lemma DrainedGetsNothing(st: State, s: Id, at: Time)
    requires s in st.servers && st.servers[s].drained
    ensures forall c: Command :: c.kind == StartCommand ==> !Leasable(st, s, c, at)
    ensures forall job, p: Placement, command, t :: p.serverId == s ==> CommitAssignment(st, job, p, command, t).Err?
  {
    hide PlacementMatches, Dispatchable, CommittedJob;
  }

  /** A drained host starts nothing until it is undrained, through registrations, inventories, heartbeats and
      restarts. */
  lemma DrainingHolds(st: State, steps: seq<Step>, s: Id, at: Time)
    requires Valid(st) && LegalRun(st, steps) && s in st.servers && st.servers[s].drained
    requires forall i :: 0 <= i < |steps| ==> !(steps[i].DrainStep? && steps[i].serverId == s)
    ensures var later := Run(st, steps);
      && (forall c :: c in later.commands && later.commands[c].kind == StartCommand ==>
              !Leasable(later, s, later.commands[c], at))
      && (forall job, p: Placement, command, t :: p.serverId == s ==> CommitAssignment(later, job, p, command, t).Err?)
  {
    hide Valid, Legal, Run, LegalRun, Leasable, CommitAssignment;
    DrainLasts(st, steps, s);
    DrainedGetsNothing(Run(st, steps), s, at);
  }
}
