/** The execution controller: one pass over the jobs that recovers uploads, ends what expired, asks for checkpoints and
  dispatches what is due. Specified on values, job by job. */
module Sweep {
  import opened Domain
  import opened Accounting
  import opened Calendar
  import opened StoreSpec
  import opened StoreSteps
  import opened StoreInvariant
  import opened StoreRuns
  import opened StepEffects
  import opened StepOutcomes
  import opened Planner
  import A = PlannerAgreement
  import I = PlannerIdempotence
  import P = Publication
  import Sorting

  /** The clock is read several times in one turn: for the upload recovery, for the turn's own decisions, and twice
      for a stop. */
  datatype Readings = Readings(recovery: Time, turn: Time, ordered: Time, stopped: Time)

  /** `clock` gives the readings of each job's turn, and `order` names the command each job of the pass may create. */
  datatype Controller = Controller(scope: Scope, enabled: Option<set<Id>>, objects: bool, timeout: int,
                                   clock: Id -> Readings,
                                   order: Id -> Id)

  function WindowOf(job: Job): TimeWindow {
    if job.assignment.Some? then job.assignment.value.Window() else job.RequestedWindow()
  }

  function StopOrder(c: Controller, id: Id): Command {
    Command(c.order(id), NO_ID, StopCommand, Pending, id, 0, c.clock(id).ordered, None, None, None)
  }

  function StartOrder(c: Controller, id: Id, serverId: Id): Command {
    Command(c.order(id), serverId, StartCommand, Pending, id, 0, c.clock(id).turn, None, None, None)
  }

  function Rebooked(job: Job): Placement
    requires job.assignment.Some?
  {
    var a := job.assignment.value;
    Placement(a.serverId, a.gpus, a.strategy, a.score, a.reason, job.policy)
  }

  /** A refused update of training metadata is somebody else's success. */
  function Retrained(st: State, id: Id, next: Training, at: Time): State
    requires id in st.jobs
  {
    match UpdateTraining(st, id, st.jobs[id].training.revision, next, at)
    case Ok(after) => after
    case Err(_) => st
  }

  function Recovered(c: Controller, st: State, id: Id): State
    requires id in st.jobs
  {
    var job := st.jobs[id];
    if P.RecoveryDue(job, c.clock(id).recovery, c.timeout)
    then Retrained(st, id, P.Abandoned(job.training, job.training.uploadKind), c.clock(id).recovery) else st
  }

  function Warned(c: Controller, st: State, id: Id): State
    requires id in st.jobs
  {
    var job := st.jobs[id];
    if c.objects && P.WarningDue(job, c.clock(id).turn, c.timeout)
    then Retrained(st, id, job.training.(checkpoint := CheckpointRequested), c.clock(id).turn) else st
  }

  predicate Due(c: Controller, job: Job, now: Time) {
    job.status == Assigned && PlannedJob(job) && WindowOf(job).Contains(now)
      && !(c.enabled.Some? && job.org !in c.enabled.value)
  }

  ghost function Expired(c: Controller, st: State, id: Id): Result<State>
    requires id in st.jobs
  {
    if st.jobs[id].status == Queued then SetJobStatus(st, id, Failed, ExpiredInQueue, c.clock(id).turn)
    else RequestStop(st, id, StopOrder(c, id), c.clock(id).stopped)
  }

  ghost function Dispatch(c: Controller, st: State, id: Id): Result<State>
    requires id in st.jobs && PlannedJob(st.jobs[id])
  {
    var job := st.jobs[id];
    match CommitAssignment(st, id, Rebooked(job), StartOrder(c, id, job.assignment.value.serverId), c.clock(id).turn)
    case Ok(next) => Ok(next)
    case Err(e) => if e == Conflict then SetJobStatus(st, id, Assigned, WaitingForSafeGPU, c.clock(id).turn) else Err(e)
  }

  /** One turn of the pass. An error ends the whole pass. */
  ghost function SweepJob(c: Controller, st: State, id: Id): Result<State>
    requires id in st.jobs
  {
    var recovered := Recovered(c, st, id);
    var job := recovered.jobs[id];
    var window := WindowOf(job);
    if job.status.Terminal() || !window.Valid() then Ok(recovered)
    else if c.clock(id).turn >= window.end then Expired(c, recovered, id)
    else
      var warned := Warned(c, recovered, id);
      if Due(c, warned.jobs[id], c.clock(id).turn) then Dispatch(c, warned, id) else Ok(warned)
  }

  // ---------------------------------------------------------------- What one turn touches

  /** The turn of one job leaves every other job, and every command but a new one of its own, alone. */
  ghost predicate OnlyTouches(st: State, next: State, id: Id, command: Id) {
    && next.jobs.Keys == st.jobs.Keys && (forall k :: k in st.jobs && k != id ==> next.jobs[k] == st.jobs[k])
    && (forall k :: k in next.commands && k !in st.commands ==> k == command)
    && (forall k :: k in st.commands ==>
          k in next.commands && next.commands[k].kind == st.commands[k].kind
            && next.commands[k].jobId == st.commands[k].jobId)
    && next.offlineAfter == st.offlineAfter
  }

  /** The same place and window, whatever else moved on. */
  predicate SamePlan(j: Job, k: Job) {
    j.assignment.Some? && k.assignment.Some? && k.status != Queued
    && var a, b := j.assignment.value, k.assignment.value;
       b.serverId == a.serverId && b.gpus == a.gpus && b.Window() == a.Window()
  }

  /** What a turn guarantees about its job. */
  ghost predicate Settled(c: Controller, st: State, next: State, id: Id)
    requires id in st.jobs && id in next.jobs
  {
    var j, k := st.jobs[id], next.jobs[id];
    && (WindowOf(j).Valid() && WindowOf(j).end <= c.clock(id).turn ==> k.status.Terminal() || k.status == Stopping)
    && (j.status == Assigned && PlannedJob(j) && WindowOf(j).end > c.clock(id).turn ==>
          SamePlan(j, k) && !k.status.Terminal()
          && (PlannedJob(k) || (k.assignment.value.commandId == c.order(id) && k.status == Starting
                                && WindowOf(j).Contains(c.clock(id).turn))))
    && (c.order(id) in next.commands && c.order(id) !in st.commands
        && next.commands[c.order(id)].kind == StartCommand ==>
          next.commands[c.order(id)].jobId == id && WindowOf(j).Contains(c.clock(id).turn) && k.assignment.Some?
            && k.assignment.value.commandId == c.order(id))
  }

  // ---------------------------------------------------------------- The parts of a turn

  lemma RetrainedIsStep(st: State, id: Id, next: Training, at: Time)
    requires Valid(st) && id in st.jobs
    ensures Retrained(st, id, next, at) == Apply(st, TrainingStep(id, st.jobs[id].training.revision, next, at))
    ensures Valid(Retrained(st, id, next, at))
  {
    hide Valid, Progress, UpdateTraining;
    TrainingKeepsValid(st, id, st.jobs[id].training.revision, next, at);
  }

  /** Training updates change nothing the controller looks at. */
  predicate Retraining(j: Job, k: Job) {
    k == j.(training := k.training, updatedAt := k.updatedAt)
  }

  lemma RetrainedTouches(st: State, id: Id, next: Training, at: Time, command: Id)
    requires id in st.jobs
    ensures var after := Retrained(st, id, next, at);
      && id in after.jobs && OnlyTouches(st, after, id, command) && Retraining(st.jobs[id], after.jobs[id])
      && after == st.(jobs := after.jobs)
  {
  }

  lemma RecoveredTouches(c: Controller, st: State, id: Id)
    requires Valid(st) && id in st.jobs
    ensures var after := Recovered(c, st, id);
      && Valid(after) && id in after.jobs && OnlyTouches(st, after, id, c.order(id))
      && Retraining(st.jobs[id], after.jobs[id])
      && after == st.(jobs := after.jobs)
  {
    hide Valid, Retrained, OnlyTouches;
    var job := st.jobs[id];
    RetrainedIsStep(st, id, P.Abandoned(job.training, job.training.uploadKind), c.clock(id).recovery);
    RetrainedTouches(st, id, P.Abandoned(job.training, job.training.uploadKind), c.clock(id).recovery, c.order(id));
    TouchesNothing(st, id, c.order(id));
  }

  lemma WarnedTouches(c: Controller, st: State, id: Id)
    requires Valid(st) && id in st.jobs
    ensures var after := Warned(c, st, id);
      && Valid(after) && id in after.jobs && OnlyTouches(st, after, id, c.order(id))
      && Retraining(st.jobs[id], after.jobs[id])
      && after == st.(jobs := after.jobs)
  {
    hide Valid, Retrained, OnlyTouches;
    var job := st.jobs[id];
    RetrainedIsStep(st, id, job.training.(checkpoint := CheckpointRequested), c.clock(id).turn);
    RetrainedTouches(st, id, job.training.(checkpoint := CheckpointRequested), c.clock(id).turn, c.order(id));
    TouchesNothing(st, id, c.order(id));
  }

  lemma TouchesNothing(st: State, id: Id, command: Id)
    ensures OnlyTouches(st, st, id, command)
  {
  }

  lemma TouchesTransitively(a: State, b: State, d: State, id: Id, command: Id)
    requires OnlyTouches(a, b, id, command) && OnlyTouches(b, d, id, command)
    ensures OnlyTouches(a, d, id, command)
  {
  }

  // ---------------------------------------------------------------- An expired job ends

  lemma ExpiryEnds(c: Controller, st: State, id: Id)
    requires Valid(st) && id in st.jobs && !st.jobs[id].status.Terminal() && c.order(id) !in st.commands
      && c.order(id) != NO_ID
    ensures Expired(c, st, id).Ok?
    ensures var next := Expired(c, st, id).value;
      && Valid(next) && id in next.jobs && OnlyTouches(st, next, id, c.order(id))
      && (next.jobs[id].status.Terminal() || next.jobs[id].status == Stopping)
      && (c.order(id) in next.commands ==> next.commands[c.order(id)].kind == StopCommand)
  {
    hide Valid, Finish, SetJobStatus, RequestStop, OnlyTouches, Progress;
    JobsAreOk(st, id);
    CommandsAreKeyed(st);
    if st.jobs[id].status == Queued {
      StatusKeepsValid(st, StatusStep(id, Failed, ExpiredInQueue, c.clock(id).turn));
      QueueExpires(st, id, c.clock(id).turn, c.order(id));
    } else {
      StopKeepsValid(st, StopStep(id, StopOrder(c, id), c.clock(id).stopped));
      StopEnds(st, id, StopOrder(c, id), c.clock(id).stopped);
    }
  }

  lemma CommandsAreKeyed(st: State)
    requires Valid(st)
    ensures WellKeyed(st.jobs) && ServersOk(st) && forall k :: k in st.commands ==> st.commands[k].id == k
  {
  }

  lemma QueueExpires(st: State, id: Id, at: Time, command: Id)
    requires id in st.jobs && st.jobs[id].id == id && st.jobs[id].status == Queued && command !in st.commands
    ensures SetJobStatus(st, id, Failed, ExpiredInQueue, at).Ok?
    ensures var next := SetJobStatus(st, id, Failed, ExpiredInQueue, at).value;
      id in next.jobs && OnlyTouches(st, next, id, command) && next.jobs[id].status == Failed
        && command !in next.commands
  {
    hide NormalizeGPUs;
    FinishEffectOnJobs(st, Transition(st.jobs[id], Failed, ExpiredInQueue, at), at);
  }

  lemma StopEnds(st: State, id: Id, command: Command, at: Time)
    requires Valid(st) && id in st.jobs && !st.jobs[id].status.Terminal() && st.jobs[id].status != Queued
    requires command.id !in st.commands && command.kind == StopCommand
    ensures RequestStop(st, id, command, at).Ok?
    ensures var next := RequestStop(st, id, command, at).value;
      && id in next.jobs && OnlyTouches(st, next, id, command.id)
      && (next.jobs[id].status.Terminal() || next.jobs[id].status == Stopping)
      && (command.id in next.commands ==> next.commands[command.id].kind == StopCommand)
  {
    hide Valid, CommandsOk, RequestStop, NormalizeGPUs, StopTermination, LogMatches, AssignmentOk, WellKeyed, ServersOk;
    JobsAreOk(st, id);
    CommandsAreKeyed(st);
    StopSucceeds(st, id, command, at);
    StopEffect(st, StopStep(id, command, at));
  }

  lemma StopSucceeds(st: State, id: Id, command: Command, at: Time)
    requires id in st.jobs && JobOk(st.jobs[id]) && command.id !in st.commands
    ensures RequestStop(st, id, command, at).Ok?
  {
    hide Finish, Transition, StopTermination, LogMatches, AssignmentOk;
  }

  // ---------------------------------------------------------------- A due booking is dispatched or kept

  lemma DispatchSettles(c: Controller, st: State, id: Id)
    requires Valid(st) && id in st.jobs && Due(c, st.jobs[id], c.clock(id).turn) && c.order(id) !in st.commands
      && c.order(id) != NO_ID
    ensures Dispatch(c, st, id).Ok?
    ensures var j, next := st.jobs[id], Dispatch(c, st, id).value;
      && Valid(next) && id in next.jobs && OnlyTouches(st, next, id, c.order(id))
      && SamePlan(j, next.jobs[id]) && !next.jobs[id].status.Terminal()
      && (if c.order(id) in next.commands
          then next.jobs[id].assignment.value.commandId == c.order(id) && next.jobs[id].status == Starting
               && next.commands[c.order(id)].jobId == id
          else PlannedJob(next.jobs[id]))
  {
    hide Valid, SetJobStatus, CommitAssignment, OnlyTouches, Progress;
    JobsAreOk(st, id);
    HostOfJob(st, id);
    var job := st.jobs[id];
    var step := CommitStep(id, Rebooked(job), StartOrder(c, id, job.assignment.value.serverId), c.clock(id).turn);
    CommitKeepsValid(st, step);
    CommitOutcome(c, st, id);
    if CommitAssignment(st, id, Rebooked(job), step.command, c.clock(id).turn).Err? {
      StatusKeepsValid(st, StatusStep(id, Assigned, WaitingForSafeGPU, c.clock(id).turn));
      NotedOutcome(st, id, c.clock(id).turn, c.order(id));
    }
  }

  lemma HostOfJob(st: State, id: Id)
    requires Valid(st) && id in st.jobs && st.jobs[id].assignment.Some?
    ensures st.jobs[id].assignment.value.serverId in st.servers
    ensures st.servers[st.jobs[id].assignment.value.serverId].id == st.jobs[id].assignment.value.serverId
  {
    assert Tenant(st.servers, st.jobs[id]);
  }

  lemma CommitOutcome(c: Controller, st: State, id: Id)
    requires id in st.jobs && st.jobs[id].id == id && Due(c, st.jobs[id], c.clock(id).turn)
      && c.order(id) !in st.commands
    requires st.jobs[id].assignment.value.serverId in st.servers && JobOk(st.jobs[id])
    ensures var job := st.jobs[id];
      match CommitAssignment(st, id, Rebooked(job), StartOrder(c, id, job.assignment.value.serverId), c.clock(id).turn)
      case Err(e) => e == Conflict
      case Ok(next) =>
        && id in next.jobs && OnlyTouches(st, next, id, c.order(id)) && SamePlan(job, next.jobs[id])
        && next.jobs[id].assignment.value.commandId == c.order(id) && next.jobs[id].status == Starting
        && c.order(id) in next.commands && next.commands[c.order(id)].jobId == id
  {
    hide PlacementMatches, ReserveGPUs, Server.Schedulable, LogMatches;
  }

  lemma NotedOutcome(st: State, id: Id, at: Time, command: Id)
    requires id in st.jobs && st.jobs[id].id == id && st.jobs[id].status == Assigned && PlannedJob(st.jobs[id])
    requires st.jobs[id].assignment.value.commandId == NO_ID && command !in st.commands
    ensures SetJobStatus(st, id, Assigned, WaitingForSafeGPU, at).Ok?
    ensures var next := SetJobStatus(st, id, Assigned, WaitingForSafeGPU, at).value;
      && id in next.jobs && OnlyTouches(st, next, id, command) && SamePlan(st.jobs[id], next.jobs[id])
      && PlannedJob(next.jobs[id]) && !next.jobs[id].status.Terminal() && command !in next.commands
  {
  }

  // ---------------------------------------------------------------- One turn

  lemma RetrainingKeepsView(j: Job, k: Job)
    requires Retraining(j, k)
    ensures WindowOf(k) == WindowOf(j) && k.status == j.status && k.assignment == j.assignment && k.org == j.org
      && PlannedJob(k) == PlannedJob(j)
    ensures j.status == Assigned && PlannedJob(j) ==> SamePlan(j, k)
  {
  }

  lemma SamePlanOfRetrained(j: Job, r: Job, k: Job)
    requires Retraining(j, r) && SamePlan(r, k)
    ensures SamePlan(j, k)
  {
  }

  lemma RetrainingTwice(j: Job, k: Job, l: Job)
    requires Retraining(j, k) && Retraining(k, l)
    ensures Retraining(j, l)
  {
  }

  lemma PlannedWindow(st: State, id: Id)
    requires Valid(st) && id in st.jobs && PlannedJob(st.jobs[id])
    ensures WindowOf(st.jobs[id]).Valid()
  {
    JobsAreOk(st, id);
  }

  /** A turn never fails, keeps the invariant, touches one job, and settles it. */
  lemma TurnSettles(c: Controller, st: State, id: Id)
    requires Valid(st) && id in st.jobs && c.order(id) !in st.commands && c.order(id) != NO_ID
    ensures SweepJob(c, st, id).Ok?
    ensures var next := SweepJob(c, st, id).value;
      Valid(next) && id in next.jobs && OnlyTouches(st, next, id, c.order(id)) && Settled(c, st, next, id)
  {
    hide Valid, Recovered, Warned, Expired, Dispatch, OnlyTouches, WindowOf, Retraining, PlannedJob, SamePlan,
         TimeWindow.Valid, TimeWindow.Contains;
    RecoveredTouches(c, st, id);
    var r := Recovered(c, st, id);
    RetrainingKeepsView(st.jobs[id], r.jobs[id]);
    ContainsMeans(WindowOf(st.jobs[id]), c.clock(id).turn);
    if PlannedJob(st.jobs[id]) { PlannedWindow(st, id); }
    if r.jobs[id].status.Terminal() || !WindowOf(r.jobs[id]).Valid() {
    } else if c.clock(id).turn >= WindowOf(r.jobs[id]).end {
      ExpiryEnds(c, r, id);
      TouchesTransitively(st, r, Expired(c, r, id).value, id, c.order(id));
    } else {
      WarnedTouches(c, r, id);
      var w := Warned(c, r, id);
      TouchesTransitively(st, r, w, id, c.order(id));
      RetrainingTwice(st.jobs[id], r.jobs[id], w.jobs[id]);
      RetrainingKeepsView(st.jobs[id], w.jobs[id]);
      if Due(c, w.jobs[id], c.clock(id).turn) {
        DispatchSettles(c, w, id);
        var d := Dispatch(c, w, id).value;
        TouchesTransitively(st, w, d, id, c.order(id));
        SamePlanOfRetrained(st.jobs[id], w.jobs[id], d.jobs[id]);
      }
    }
  }

  lemma ContainsMeans(w: TimeWindow, now: Time)
    ensures w.Contains(now) ==> now < w.end && w.Valid()
  {
  }

  // ---------------------------------------------------------------- The whole pass

  ghost function SweepAll(c: Controller, st: State, ids: seq<Id>): Result<State>
    decreases |ids|
  {
    if ids == [] then Ok(st)
    else if ids[0] !in st.jobs then Err(NotFound)
    else
      match SweepJob(c, st, ids[0])
      case Err(e) => Err(e)
      case Ok(next) => SweepAll(c, next, ids[1..])
  }

  /** New command identifiers, one per job. */
  ghost predicate Orders(c: Controller, st: State, ids: seq<Id>) {
    && (forall id :: id in ids ==> c.order(id) !in st.commands && c.order(id) != NO_ID)
    && (forall i, j :: 0 <= i < j < |ids| ==> c.order(ids[i]) != c.order(ids[j]))
  }

  /** What the pass as a whole leaves alone. */
  ghost predicate PassTouches(c: Controller, st: State, next: State, ids: seq<Id>) {
    && next.jobs.Keys == st.jobs.Keys && (forall k :: k in st.jobs && k !in ids ==> next.jobs[k] == st.jobs[k])
    && (forall k :: k in next.commands && k !in st.commands ==> exists id :: id in ids && k == c.order(id))
    && (forall k :: k in st.commands ==>
          k in next.commands && next.commands[k].kind == st.commands[k].kind
            && next.commands[k].jobId == st.commands[k].jobId)
    && next.offlineAfter == st.offlineAfter
  }

  lemma OrdersRemain(c: Controller, st: State, next: State, ids: seq<Id>)
    requires ids != [] && DistinctIds(ids) && Orders(c, st, ids) && OnlyTouches(st, next, ids[0], c.order(ids[0]))
    ensures Orders(c, next, ids[1..]) && DistinctIds(ids[1..]) && ids[0] !in ids[1..]
    ensures forall id :: id in ids[1..] ==> id in ids && id != ids[0] && c.order(id) != c.order(ids[0])
  {
    forall id | id in ids[1..] ensures id in ids && id != ids[0] && c.order(id) != c.order(ids[0]) {
      var i :| 0 <= i < |ids[1..]| && ids[1..][i] == id;
      assert ids[i + 1] == id;
    }
  }

  lemma FirstStaysSettled(c: Controller, st: State, mid: State, next: State, ids: seq<Id>)
    requires ids != [] && ids[0] in st.jobs && ids[0] in mid.jobs && Orders(c, st, ids)
    requires OnlyTouches(st, mid, ids[0], c.order(ids[0])) && Settled(c, st, mid, ids[0])
    requires PassTouches(c, mid, next, ids[1..]) && ids[0] !in ids[1..]
    requires forall id :: id in ids[1..] ==> c.order(id) != c.order(ids[0])
    ensures ids[0] in next.jobs && Settled(c, st, next, ids[0])
  {
    hide WindowOf, SamePlan, PlannedJob;
  }

  lemma LaterIsSettled(c: Controller, st: State, mid: State, next: State, first: Id, id: Id)
    requires OnlyTouches(st, mid, first, c.order(first)) && id != first && c.order(id) != c.order(first)
    requires id in st.jobs && id in mid.jobs && id in next.jobs && c.order(id) !in st.commands
    requires Settled(c, mid, next, id)
    ensures Settled(c, st, next, id)
  {
    hide WindowOf, SamePlan, PlannedJob;
  }

  lemma PassGrows(c: Controller, st: State, mid: State, next: State, ids: seq<Id>)
    requires ids != [] && OnlyTouches(st, mid, ids[0], c.order(ids[0])) && PassTouches(c, mid, next, ids[1..])
    ensures PassTouches(c, st, next, ids)
  {
    assert ids == [ids[0]] + ids[1..];
  }

  /** The pass never fails and settles every job it visits. */
  lemma {:induction false} PassSettles(c: Controller, st: State, ids: seq<Id>)
    requires Valid(st) && DistinctIds(ids) && Orders(c, st, ids) && forall id :: id in ids ==> id in st.jobs
    ensures SweepAll(c, st, ids).Ok?
    ensures var next := SweepAll(c, st, ids).value;
      && Valid(next) && PassTouches(c, st, next, ids)
      && forall id :: id in ids ==> id in next.jobs && Settled(c, st, next, id)
    decreases |ids|
  {
    hide Valid, SweepJob, OnlyTouches, PassTouches, Settled, Orders, DistinctIds;
    if ids == [] {
      NobodyTouched(c, st);
    } else {
      FreshOrder(c, st, ids, ids[0]);
      TurnSettles(c, st, ids[0]);
      var mid := SweepJob(c, st, ids[0]).value;
      OrdersRemain(c, st, mid, ids);
      SameJobs(st, mid, ids[0], c.order(ids[0]));
      PassSettles(c, mid, ids[1..]);
      var next := SweepAll(c, mid, ids[1..]).value;
      FirstStaysSettled(c, st, mid, next, ids);
      PassGrows(c, st, mid, next, ids);
      forall id | id in ids[1..] ensures id in next.jobs && Settled(c, st, next, id) {
        FreshOrder(c, st, ids, id);
        LaterIsSettled(c, st, mid, next, ids[0], id);
      }
      assert ids == [ids[0]] + ids[1..];
    }
  }

  lemma NobodyTouched(c: Controller, st: State)
    ensures PassTouches(c, st, st, [])
  {
  }

  lemma FreshOrder(c: Controller, st: State, ids: seq<Id>, id: Id)
    requires id in ids && Orders(c, st, ids)
    ensures c.order(id) !in st.commands && c.order(id) != NO_ID
  {
  }

  lemma SameJobs(st: State, next: State, id: Id, command: Id)
    requires OnlyTouches(st, next, id, command)
    ensures next.jobs.Keys == st.jobs.Keys
  {
  }

  /** The jobs a pass visits: everybody the caller may see, by identifier. */
  ghost function Visited(c: Controller, st: State): seq<Id> {
    var jobs := Sorting.Filter((j: Job) => c.scope.Sees(j), SnapshotJobs(st));
    seq(|jobs|, i requires 0 <= i < |jobs| => jobs[i].id)
  }

  lemma VisitedExactly(c: Controller, st: State)
    requires JobsOk(st.jobs)
    ensures DistinctIds(Visited(c, st))
    ensures forall id :: id in Visited(c, st) <==> id in st.jobs && c.scope.Sees(st.jobs[id])
  {
    hide JobOk, SnapshotJobs;
    A.SnapshotJobsOk(st);
    I.SnapshotIsSorted(st);
    var keep := (j: Job) => c.scope.Sees(j);
    Sorting.FilterMembers(keep, SnapshotJobs(st));
    Sorting.FilterSorted(JobIdBefore, keep, SnapshotJobs(st));
    var jobs := Sorting.Filter(keep, SnapshotJobs(st));
    forall i, j | 0 <= i < j < |jobs| ensures jobs[i].id != jobs[j].id {
      assert JobIdBefore(jobs[i], jobs[j]);
    }
    forall id | id in st.jobs && c.scope.Sees(st.jobs[id]) ensures id in Visited(c, st) {
      assert st.jobs[id] in jobs;
      var i :| 0 <= i < |jobs| && jobs[i] == st.jobs[id];
      assert Visited(c, st)[i] == id;
    }
    forall id | id in Visited(c, st) ensures id in st.jobs && c.scope.Sees(st.jobs[id]) {
      var i :| 0 <= i < |jobs| && Visited(c, st)[i] == id;
      assert jobs[i] in jobs;
    }
  }

  /** The booked time when there is a booking, otherwise the requested one. */
  predicate TimeIs(job: Job, start: Time, end: Time) {
    if job.assignment.Some? then
      job.assignment.value.start == start != ZERO_TIME && job.assignment.value.end == end && start < end
    else job.neededAt == Needed(start) && EndOf(job) == Some(end)
  }

  lemma TimeMeans(job: Job, start: Time, end: Time)
    ensures TimeIs(job, start, end) <==> WindowOf(job) == TimeWindow(start, end) && TimeWindow(start, end).Valid()
  {
    WindowMeans(job);
  }

  /** After an uninterrupted pass of the background worker, whatever its clock readings: every job whose time was over
      when its turn came is terminal or stopping, and every booking that was due then is on its way or still planned,
      at the same place. */
  lemma SweepIsComplete(c: Controller, st: State, id: Id, start: Time, end: Time)
    requires Valid(st) && c.scope.Everything? && Orders(c, st, Visited(c, st)) && id in st.jobs
    requires TimeIs(st.jobs[id], start, end)
    ensures SweepAll(c, st, Visited(c, st)).Ok?
    ensures var j, next := st.jobs[id], SweepAll(c, st, Visited(c, st)).value;
      && Valid(next) && id in next.jobs
      && (end <= c.clock(id).turn ==> next.jobs[id].status in {Stopped, Succeeded, Failed, Cancelled, Stopping})
      && (start <= c.clock(id).turn < end && j.status == Assigned && j.assignment.Some?
          && j.assignment.value.state == PlannedState ==>
            var k := next.jobs[id];
            && k.assignment.Some? && k.assignment.value.serverId == j.assignment.value.serverId
            && k.assignment.value.gpus == j.assignment.value.gpus
            && k.assignment.value.start == start && k.assignment.value.end == end
            && (k.assignment.value.state == PlannedState || k.status == Starting))
  {
    hide Valid, SweepAll, JobsOk, Visited, WindowOf, Orders, EndOf;
    A.ValidSnapshot(st);
    VisitedExactly(c, st);
    PassSettles(c, st, Visited(c, st));
    TimeMeans(st.jobs[id], start, end);
    ContainsMeans(WindowOf(st.jobs[id]), c.clock(id).turn);
    var next := SweepAll(c, st, Visited(c, st)).value;
    assert id in Visited(c, st) && Settled(c, st, next, id);
  }

  /** A START is created only for a job whose time contained the moment of its turn. */
  lemma SweepStartsInTime(c: Controller, st: State)
    requires Valid(st) && Orders(c, st, Visited(c, st))
    ensures SweepAll(c, st, Visited(c, st)).Ok?
    ensures var next := SweepAll(c, st, Visited(c, st)).value;
      forall k :: k in next.commands && k !in st.commands && next.commands[k].kind == StartCommand ==>
        StartedInTime(c, st, next.commands[k])
  {
    hide Valid, SweepAll, JobsOk, Visited, WindowOf, Orders, EndOf, StartedInTime;
    A.ValidSnapshot(st);
    VisitedExactly(c, st);
    PassSettles(c, st, Visited(c, st));
    var next := SweepAll(c, st, Visited(c, st)).value;
    forall k | k in next.commands && k !in st.commands && next.commands[k].kind == StartCommand
      ensures StartedInTime(c, st, next.commands[k])
    {
      var owner :| owner in Visited(c, st) && k == c.order(owner);
      assert Settled(c, st, next, owner);
      ContainedIsInTime(c, st, next.commands[k]);
    }
  }

  /** The job of the command had a time, and it contained the moment of its turn. */
  ghost predicate StartedInTime(c: Controller, st: State, command: Command) {
    command.jobId in st.jobs
    && exists start, end ::
         TimeIs(st.jobs[command.jobId], start, end) && start <= c.clock(command.jobId).turn < end
  }

  lemma ContainedIsInTime(c: Controller, st: State, command: Command)
    requires command.jobId in st.jobs && WindowOf(st.jobs[command.jobId]).Contains(c.clock(command.jobId).turn)
    ensures StartedInTime(c, st, command)
  {
    var w := WindowOf(st.jobs[command.jobId]);
    TimeMeans(st.jobs[command.jobId], w.start, w.end);
  }
}
