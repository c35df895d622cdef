/** What one turn of the execution pass does, as the steps it takes and when it takes them, in the fields of its job. */
module SweepOutcomes {
  import opened Domain
  import opened StoreSpec
  import opened StoreSteps
  import opened StoreInvariant
  import opened StoreRuns
  import opened StepOutcomes
  import opened Planner
  import opened Sweep
  import P = Publication
  import O = PublicationOutcomes

  // ---------------------------------------------------------------- Training metadata

  /** The job once a lost upload was given up: its lease timed out, or the deadline passed. */
  function Recovery(c: Controller, j: Job): Job {
    var t, now := j.training, c.clock(j.id).recovery;
    if j.workload == TrainingWorkload && t.uploadId != NO_ID
       && (t.uploadStarted + c.timeout <= now || P.Deadline(j) <= now)
    then j.(training := O.Outputs(t, t.uploadKind, None, now, 0), updatedAt := now) else j
  }

  /** The job once a checkpoint was asked for, when the warning is due and there is an object store. */
  function Warning(c: Controller, j: Job): Job {
    var now := c.clock(j.id).turn;
    if c.objects && O.Warns(j, now, c.timeout)
    then j.(training := j.training.(checkpoint := CheckpointRequested, revision := j.training.revision + 1),
            updatedAt := now)
    else j
  }

  lemma RecoveredMeans(c: Controller, st: State, id: Id)
    requires id in st.jobs && st.jobs[id].id == id
    ensures Recovered(c, st, id) == st.(jobs := st.jobs[id := Recovery(c, st.jobs[id])])
  {
    hide P.Deadline;
    assert st.jobs[id := st.jobs[id]] == st.jobs;
  }

  lemma WarnedMeans(c: Controller, st: State, id: Id)
    requires id in st.jobs && st.jobs[id].id == id
    ensures Warned(c, st, id) == st.(jobs := st.jobs[id := Warning(c, st.jobs[id])])
  {
    hide Job.RequestedWindow;
    assert st.jobs[id := st.jobs[id]] == st.jobs;
  }

  // ---------------------------------------------------------------- One turn

  /** The booked time when there is a booking, otherwise the requested one. */
  function TimeOf(j: Job): Option<TimeWindow> {
    if j.assignment.Some? then
      var a := j.assignment.value;
      if a.start != ZERO_TIME && a.start < a.end then Some(TimeWindow(a.start, a.end)) else None
    else if EndOf(j).Some? then Some(TimeWindow(j.neededAt.at, EndOf(j).value)) else None
  }

  lemma TimeOfMeans(j: Job)
    ensures TimeOf(j).Some? <==> WindowOf(j).Valid()
    ensures TimeOf(j).Some? ==> TimeOf(j).value == WindowOf(j)
  {
    WindowMeans(j);
  }

  /** A STOP the worker asks for, and a START for a booking. */
  function StopAsked(c: Controller, j: Job): Step {
    var clock := c.clock(j.id);
    StopStep(j.id, Command(c.order(j.id), NO_ID, StopCommand, Pending, j.id, 0, clock.ordered, None, None, None),
             clock.stopped)
  }

  function StartAsked(c: Controller, j: Job, a: Assignment): Step {
    var now := c.clock(j.id).turn;
    CommitStep(j.id, Placement(a.serverId, a.gpus, a.strategy, a.score, a.reason, j.policy),
               Command(c.order(j.id), a.serverId, StartCommand, Pending, j.id, 0, now, None, None, None), now)
  }

  /** The booking has begun, and its organisation may run. */
  predicate MayStart(c: Controller, j: Job) {
    && j.status == Assigned && j.assignment.Some? && j.assignment.value.state == PlannedState
    && j.assignment.value.start <= c.clock(j.id).turn && (c.enabled.None? || j.org in c.enabled.value)
  }

  /** A turn first gives up a lost upload. A job whose time is over then fails in the queue and is stopped anywhere
      else. Any other job may be asked for a checkpoint, and a booking that has begun is dispatched when its host is
      ready and has the room, and is noted as waiting when not. An ended job, or one without a time, is left at that. */
  lemma TurnOutcome(c: Controller, st: State, id: Id)
    requires Valid(st) && id in st.jobs && c.order(id) !in st.commands && c.order(id) != NO_ID
    ensures SweepJob(c, st, id).Ok?
    ensures var j, next, now := Recovery(c, st.jobs[id]), SweepJob(c, st, id).value, c.clock(id).turn;
      var recovered := st.(jobs := st.jobs[id := j]);
      if j.status in {Stopped, Succeeded, Failed, Cancelled} || TimeOf(j).None? then next == recovered
      else if TimeOf(j).value.end <= now then
        next == Apply(recovered, if j.status == Queued then StatusStep(id, Failed, ExpiredInQueue, now)
                      else StopAsked(c, j))
      else
        var warned := st.(jobs := st.jobs[id := Warning(c, j)]);
        if !MayStart(c, j) then next == warned
        else
          var a := j.assignment.value;
          && a.serverId in st.servers
          && next == Apply(warned,
                           if HostReady(st.servers[a.serverId], now, st.offlineAfter)
                             && Room(j, st.servers[a.serverId], a.gpus)
                           then StartAsked(c, j, a) else StatusStep(id, Assigned, WaitingForSafeGPU, now))
  {
    hide Valid, Recovered, Warned, Expired, Dispatch, WindowOf, Recovery, Warning, TimeOf, MayStart, Due, HostReady,
         Room, Job.RequestedWindow, EndOf, Apply, OnlyTouches, Sweep.Settled, Retraining;
    TurnSettles(c, st, id);
    JobsAreOk(st, id);
    RecoveredMeans(c, st, id);
    RecoveredTouches(c, st, id);
    var r := Recovered(c, st, id);
    var j := Recovery(c, st.jobs[id]);
    RecoveryKeepsName(c, st.jobs[id]);
    TimeOfMeans(j);
    if j.status.Terminal() || TimeOf(j).None? {
    } else if TimeOf(j).value.end <= c.clock(id).turn {
      ExpiredMeans(c, r, id);
    } else {
      WarnedMeans(c, r, id);
      WarnedTouches(c, r, id);
      WarningKeepsView(c, j);
      DueMeans(c, j);
      assert r.jobs[id := Warning(c, j)] == st.jobs[id := Warning(c, j)];
      if MayStart(c, j) {
        DispatchMeans(c, Warned(c, r, id), id);
      }
    }
  }

  lemma RecoveryKeepsName(c: Controller, j: Job)
    ensures Recovery(c, j).id == j.id
  {
  }

  lemma WarningKeepsView(c: Controller, j: Job)
    ensures var k := Warning(c, j); k == j.(training := k.training, updatedAt := k.updatedAt)
    ensures MayStart(c, Warning(c, j)) <==> MayStart(c, j)
    ensures Due(c, Warning(c, j), c.clock(j.id).turn) <==> Due(c, j, c.clock(j.id).turn)
    ensures forall host, gpus :: Room(Warning(c, j), host, gpus) <==> Room(j, host, gpus)
    ensures forall a :: StartAsked(c, Warning(c, j), a) == StartAsked(c, j, a)
  {
    hide O.Warns;
  }

  lemma DueMeans(c: Controller, j: Job)
    ensures TimeOf(j).Some? && c.clock(j.id).turn < TimeOf(j).value.end ==>
      (MayStart(c, j) <==> Due(c, j, c.clock(j.id).turn))
  {
    TimeOfMeans(j);
  }

  lemma ExpiredMeans(c: Controller, st: State, id: Id)
    requires Valid(st) && id in st.jobs && st.jobs[id].id == id && Expired(c, st, id).Ok?
    ensures var j := st.jobs[id];
      Expired(c, st, id).value
      == Apply(st, if j.status == Queued then StatusStep(id, Failed, ExpiredInQueue, c.clock(id).turn)
               else StopAsked(c, j))
  {
    hide Valid, SetJobStatus, RequestStop;
  }

  lemma DispatchMeans(c: Controller, st: State, id: Id)
    requires Valid(st) && id in st.jobs && st.jobs[id].id == id && c.order(id) !in st.commands && c.order(id) != NO_ID
    requires Due(c, st.jobs[id], c.clock(id).turn) && Dispatch(c, st, id).Ok?
    ensures var j, now := st.jobs[id], c.clock(id).turn;
      var a := j.assignment.value;
      && a.serverId in st.servers
      && Dispatch(c, st, id).value
         == Apply(st, if HostReady(st.servers[a.serverId], now, st.offlineAfter)
                  && Room(j, st.servers[a.serverId], a.gpus)
                      then StartAsked(c, j, a) else StatusStep(id, Assigned, WaitingForSafeGPU, now))
  {
    hide Valid, SetJobStatus, CommitAssignment, HostReady, Room, LaunchedAs, ReservedFor;
    JobsAreOk(st, id);
    HostOfJob(st, id);
    var j := st.jobs[id];
    DueMayGo(c, j);
    StepOutcomes.CommitOutcome(st, StartAsked(c, j, j.assignment.value));
  }

  lemma DueMayGo(c: Controller, j: Job)
    requires JobOk(j) && Due(c, j, c.clock(j.id).turn)
    ensures j.assignment.Some?
    ensures var s := StartAsked(c, j, j.assignment.value); MayGo(j, s.placement, s.command.kind, c.clock(j.id).turn)
  {
    hide LogMatches;
  }
}
