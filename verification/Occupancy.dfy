/** A GPU offered for placement was idle in the last accepted inventory of its host, over whole runs. */
module Occupancy {
  import opened Domain
  import opened Accounting
  import opened Calendar
  import opened StoreSpec
  import opened StoreSteps
  import opened StoreInvariant
  import opened ReplanInvariant
  import opened StoreRuns
  import opened StepEffects

  /** The last inventory of a host that the repository accepted during a run. */
  ghost function LastReport(st: State, steps: seq<Step>, serverId: Id): Option<Report> {
    if steps == [] then None
    else
      var front, last := steps[..|steps| - 1], steps[|steps| - 1];
      if last.InventoryStep? && last.agentId == serverId && Outcome(Run(st, front), last).Ok?
        then Some(Stamped(last.report))
      else LastReport(st, front, serverId)
  }

  /** The report shows nobody on the GPU. */
  ghost predicate Idle(report: Report, uuid: Id) {
    && (forall c :: c in report.containers && Consumes(c.state) ==> uuid !in c.gpus)
    && (forall p :: p in report.processes ==> p.gpu != uuid)
    && exists g :: g in report.gpus && g.uuid == uuid && g.healthy && g.state != OccupiedUnknown
  }

  /** What the recorded state of a GPU still remembers of a report. */
  predicate Remembers(report: Report, g: GPU) {
    && (g.state == Free ==> !GrantedIn(report.containers, g.uuid))
    && (forall p :: p in report.processes && p.gpu == g.uuid ==>
          GrantedIn(report.containers, g.uuid) || g.state == OccupiedUnknown || !g.healthy)
    && (exists r :: r in report.gpus && r.uuid == g.uuid && r.healthy == g.healthy
          && (r.state == OccupiedUnknown ==>
                  GrantedIn(report.containers, g.uuid) || g.state == OccupiedUnknown || !g.healthy))
  }

  /** A receipt time vouches for the last report. */
  ghost predicate Vouches(server: Server, report: Option<Report>) {
    server.inventoryReceived != ZERO_TIME ==>
      report.Some? && Complete(report.value) && server.containers == report.value.containers
      && server.inventoryReceived == report.value.receivedAt
      && forall g :: g in server.gpus ==> Remembers(report.value, g)
  }

  // ---------------------------------------------------------------- How a step can change a host

  /** Outside inventory and registration a host keeps its containers and its receipt (or loses the receipt), and
      its GPUs are unchanged, re-accounted without processes, or reserved from free ones. */
  ghost predicate HostStep(before: Server, after: Server, jobs: map<Id, Job>) {
    && after.containers == before.containers
    && (after.inventoryReceived == before.inventoryReceived || after.inventoryReceived == ZERO_TIME)
    && (after.gpus == before.gpus
        || after.gpus == NormalizeGPUs(before.id, before.gpus, before.containers, [], jobs)
        || ReservesFree(before.gpus, after.gpus))
  }

  predicate ReservesFree(before: seq<GPU>, after: seq<GPU>) {
    |after| == |before| && forall i :: 0 <= i < |before| ==>
      after[i] == before[i] || (before[i].state == Free
                                && after[i] == before[i].(state := Reserved, assignedJob := after[i].assignedJob))
  }

  lemma ReaccountedIsHostStep(st: State, next: State, s: Id)
    requires ServersOk(st) && Reaccounts(st, next) && s in st.servers
    ensures s in next.servers && HostStep(st.servers[s], next.servers[s], next.jobs)
  {
    hide NormalizeGPUs, ServerOk;
  }

  lemma CommitIsHostStep(st: State, step: Step, s: Id)
    requires Valid(st) && step.CommitStep? && Legal(st, step) && s in st.servers
    ensures s in Apply(st, step).servers && HostStep(st.servers[s], Apply(st, step).servers[s], Apply(st, step).jobs)
  {
    hide Valid, Outcome, Legal, Apply, PlacementMatches, Books, Holds, JobOk, Evolves, Advances, NormalizeGPUs;
    if Outcome(st, step).Err? {
      FailedStep(st, step);
    } else {
      var job, done, server := CommitIsReserving(st, step);
      if s == server.id {
        WantedAreFree(job, server, step.placement);
      }
    }
  }

  lemma WantedAreFree(job: Job, server: Server, p: Placement)
    requires PlacementMatches(job, server, p)
    ensures ReservesFree(server.gpus, ReserveGPUs(server.gpus, p.gpus, job.id))
    ensures forall id :: ReservesFree(server.gpus, ReserveGPUs(server.gpus, p.gpus, id))
  {
    assert forall i :: 0 <= i < |server.gpus| ==> server.gpus[i] in server.gpus;
  }

  lemma StepIsHostStep(st: State, step: Step, s: Id)
    requires Valid(st) && Legal(st, step) && s in st.servers
    requires !(step.InventoryStep? && step.agentId == s) && !step.UpsertStep?
    ensures s in Apply(st, step).servers && HostStep(st.servers[s], Apply(st, step).servers[s], Apply(st, step).jobs)
  {
    hide JobsOk, GPUsUnshared, CommandsOk, Tenants, Exclusive, HeldIsNotFree, CalendarExclusive, NormalizeGPUs, Finish,
         Transition, Replan, LeaseBatch, Admitted, SoundReport, NewCommand, HostStep, Reconcile, AckJob, ServerOk,
         CommitAssignment, ForeignGPU, StopTermination, StatusIgnored;
    SameHostIsHostStep(st.servers[s], Apply(st, step).jobs);
    match step
    case CommitStep(_, _, _, _) => CommitIsHostStep(st, step, s);
    case StatusStep(_, _, _, _) => EndingIsHostStep(st, step, s);
    case StopStep(_, _, _) => EndingIsHostStep(st, step, s);
    case AckStep(_, _, _, _) => EndingIsHostStep(st, step, s);
    case HeartbeatStep(_, _) => StatusIsHostStep(st, step, s);
    case DrainStep(_, _) => StatusIsHostStep(st, step, s);
    case MarkStaleStep(_) => StatusIsHostStep(st, step, s);
    case RestartStep => StatusIsHostStep(st, step, s);
    case _ =>
  }

  lemma SameHostIsHostStep(server: Server, jobs: map<Id, Job>)
    ensures HostStep(server, server, jobs)
  {
  }

  lemma StatusIsHostStep(st: State, step: Step, s: Id)
    requires s in st.servers
    requires step.HeartbeatStep? || step.DrainStep? || step.MarkStaleStep? || step.RestartStep?
    ensures s in Apply(st, step).servers && HostStep(st.servers[s], Apply(st, step).servers[s], Apply(st, step).jobs)
  {
    hide NormalizeGPUs;
  }

  lemma EndingIsHostStep(st: State, step: Step, s: Id)
    requires Valid(st) && (step.StopStep? || step.StatusStep? || step.AckStep?) && s in st.servers
    ensures s in Apply(st, step).servers && HostStep(st.servers[s], Apply(st, step).servers[s], Apply(st, step).jobs)
  {
    hide Valid, Apply, Reaccounts, HostStep;
    ValidServers(st);
    EndingReaccounts(st, step);
    ReaccountedIsHostStep(st, Apply(st, step), s);
  }

  // ---------------------------------------------------------------- Memory survives every step

  lemma AccountingRemembers(serverId: Id, report: Report, g: GPU, jobs: map<Id, Job>)
    requires g in report.gpus
    ensures Remembers(report, NormalizeGPU(serverId, g, report.containers, report.processes, jobs))
  {
    var n := NormalizeGPU(serverId, g, report.containers, report.processes, jobs);
    FreeExactly(serverId, g, report.containers, report.processes, jobs);
    GrantsAreClassified(serverId, jobs, report.containers, g.uuid);
    ClashIsGranted(serverId, jobs, report.containers, g.uuid);
    if !GrantedIn(report.containers, g.uuid) && !UnattributedIn(report.containers, report.processes, g.uuid) {
      ProcessesAreClassified(report.containers, report.processes, g.uuid);
    }
  }

  lemma ClashIsGranted(serverId: Id, jobs: map<Id, Job>, cs: seq<Container>, uuid: Id)
    ensures ClashIn(serverId, jobs, cs, uuid) ==> GrantedIn(cs, uuid)
  {
  }

  lemma ReaccountingRemembers(serverId: Id, report: Report, g: GPU, jobs: map<Id, Job>)
    requires Remembers(report, g)
    ensures Remembers(report, NormalizeGPU(serverId, g, report.containers, [], jobs))
  {
    FreeExactly(serverId, g, report.containers, [], jobs);
    GrantsAreClassified(serverId, jobs, report.containers, g.uuid);
    ClashIsGranted(serverId, jobs, report.containers, g.uuid);
  }

  lemma HostStepVouches(before: Server, after: Server, jobs: map<Id, Job>, report: Option<Report>)
    requires HostStep(before, after, jobs) && Vouches(before, report)
    ensures Vouches(after, report)
  {
    hide NormalizeGPU, Remembers;
    if after.inventoryReceived != ZERO_TIME {
      forall g | g in after.gpus ensures Remembers(report.value, g) {
        var i :| 0 <= i < |after.gpus| && after.gpus[i] == g;
        assert before.gpus[i] in before.gpus;
        ReaccountingRemembers(before.id, report.value, before.gpus[i], jobs);
        ReservingRemembers(report.value, before.gpus[i], g);
      }
    }
  }

  lemma ReservingRemembers(report: Report, before: GPU, after: GPU)
    requires Remembers(report, before)
    ensures before.state == Free && after == before.(state := Reserved, assignedJob := after.assignedJob) ==>
      Remembers(report, after)
  {
  }

  lemma InventoryVouches(st: State, agentId: Id, report: Report)
    requires ReplaceInventory(st, agentId, report).Ok?
    ensures var next := ReplaceInventory(st, agentId, report).value;
      agentId in next.servers && Vouches(next.servers[agentId], Some(Stamped(report)))
  {
    hide NormalizeGPU, Remembers, Reconcile, ForeignGPU;
    var next := ReplaceInventory(st, agentId, report).value;
    var r := Stamped(report);
    if Complete(report) {
      forall i | 0 <= i < |report.gpus| ensures Remembers(r, next.servers[agentId].gpus[i]) {
        AccountingRemembers(agentId, r, report.gpus[i], next.jobs);
      }
    }
  }

  lemma UpsertVouches(st: State, step: Step, s: Id, report: Option<Report>)
    requires ServersOk(st) && step.UpsertStep? && Legal(st, step)
    requires s in st.servers ==> Vouches(st.servers[s], report)
    ensures s in Apply(st, step).servers ==> Vouches(Apply(st, step).servers[s], report)
  {
    hide Remembers, ServerOk;
  }

  lemma StepVouches(st: State, step: Step, s: Id, report: Option<Report>)
    requires Valid(st) && Legal(st, step)
    requires s in st.servers ==> Vouches(st.servers[s], report)
    ensures s in Apply(st, step).servers ==>
      Vouches(Apply(st, step).servers[s],
              if step.InventoryStep? && step.agentId == s && Outcome(st, step).Ok? then Some(Stamped(step.report))
                else report)
  {
    hide Valid, Legal, HostStep, Vouches, ReplaceInventory;
    if step.UpsertStep? {
      ValidServers(st);
      UpsertVouches(st, step, s, report);
    } else if step.InventoryStep? && step.agentId == s {
      if Outcome(st, step).Ok? { InventoryVouches(st, s, step.report); }
    } else if s in st.servers {
      StepIsHostStep(st, step, s);
      HostStepVouches(st.servers[s], Apply(st, step).servers[s], Apply(st, step).jobs, report);
    } else {
      NoOtherHostAppears(st, step, s);
    }
  }

  lemma ValidServers(st: State)
    requires Valid(st)
    ensures ServersOk(st)
  {
  }

  lemma NoOtherHostAppears(st: State, step: Step, s: Id)
    requires Valid(st) && !step.UpsertStep? && s !in st.servers
    ensures s !in Apply(st, step).servers
  {
    hide Transition, NormalizeGPUs, JobsOk, GPUsUnshared, CommandsOk, Tenants, Exclusive, HeldIsNotFree,
         CalendarExclusive, AckJob, Replan, Reconcile;
  }

  lemma {:induction false} RunVouches(st: State, steps: seq<Step>, s: Id)
    requires Valid(st) && LegalRun(st, steps) && st.servers == map[]
    ensures s in Run(st, steps).servers ==> Vouches(Run(st, steps).servers[s], LastReport(st, steps, s))
  {
    hide Valid, Legal, Apply, Vouches;
    if steps != [] {
      var front := steps[..|steps| - 1];
      PrefixIsLegal(st, steps, |steps| - 1);
      assert LegalRun(st, front);
      RunKeepsValid(st, front);
      RunVouches(st, front, s);
      StepVouches(Run(st, front), steps[|steps| - 1], s, LastReport(st, front, s));
    }
  }

  /** When a host can take placements and one of its GPUs is free, the last inventory the repository accepted from
      it was complete and showed no active container and no process on that GPU. */
  lemma OccupancySafety(offlineAfter: int, steps: seq<Step>, s: Id, g: GPU, now: Time)
    requires LegalRun(Initial(offlineAfter), steps)
    requires var st := Run(Initial(offlineAfter), steps);
      s in st.servers && st.servers[s].Schedulable(now, offlineAfter) && g in st.servers[s].gpus && g.Schedulable()
    ensures var report := LastReport(Initial(offlineAfter), steps, s);
      report.Some? && Complete(report.value) && Idle(report.value, g.uuid)
  {
    InitialIsValid(offlineAfter);
    RunVouches(Initial(offlineAfter), steps, s);
    hide Run, LegalRun, LastReport;
    var report := LastReport(Initial(offlineAfter), steps, s).value;
    assert Remembers(report, g);
  }
}
