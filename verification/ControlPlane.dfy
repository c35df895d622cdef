/** The application's background work over the repository: the execution pass, the planner call-back, and the scheduling
  cycle made of them. */
module ControlPlane {
  import opened Domain
  import opened Accounting
  import opened StoreSpec
  import opened StoreSteps
  import opened StoreRuns
  import opened StepOutcomes
  import opened RepositoryLoops
  import opened MemoryRepository
  import opened Sweep
  import A = PlannerAgreement
  import I = PlannerIdempotence
  import P = Publication
  import Planner
  import Sorting

  /** The state after one execution pass. */
  ghost function Swept(c: Controller, st: State): State {
    match SweepAll(c, st, Visited(c, st))
    case Ok(next) => next
    case Err(_) => st
  }

  /** The state after one planner run. */
  ghost function PlanApplied(config: Planner.Config, st: State, now: Time): State {
    Apply(st, ReplanStep(now, Planner.PlanReservations(config, SnapshotJobs(st), SnapshotServers(st), now)))
  }

  class Worker {
    const repository: MemoryStore

    constructor (repository: MemoryStore)
      ensures this.repository == repository
    {
      this.repository := repository;
    }

    /** Clears a crashed or expired upload lease; a refused update leaves the job as it was read. */
    method RecoverTrainingUpload(c: Controller, read: Job) returns (job: Job)
      requires repository.Valid() && read.id in repository.jobs && repository.jobs[read.id] == read
      modifies repository
      ensures repository.Valid() && repository.Contents() == Recovered(c, old(repository.Contents()), read.id)
      ensures read.id in repository.jobs && repository.jobs[read.id] == job
    {
      hide StoreSteps.Valid, P.RecoveryDue, UpdateTraining;
      ghost var before := repository.Contents();
      RecoveredTouches(c, before, read.id);
      job := read;
      if !P.RecoveryDue(read, c.clock(read.id).recovery, c.timeout) {
        return;
      }
      var next := P.Abandoned(read.training, read.training.uploadKind);
      var updated := repository.UpdateTraining(read.id, read.training.revision, next, c.clock(read.id).recovery);
      if updated.Ok? {
        job := updated.value;
      }
    }

    method RequestCheckpoint(c: Controller, job: Job)
      requires repository.Valid() && job.id in repository.jobs && repository.jobs[job.id] == job
      modifies repository
      ensures repository.Valid() && repository.Contents() == Warned(c, old(repository.Contents()), job.id)
    {
      hide StoreSteps.Valid, P.WarningDue, UpdateTraining;
      if !c.objects || !P.WarningDue(job, c.clock(job.id).turn, c.timeout) {
        return;
      }
      var next := job.training.(checkpoint := CheckpointRequested);
      var updated := repository.UpdateTraining(job.id, job.training.revision, next, c.clock(job.id).turn);
    }

    method StopJob(c: Controller, id: Id) returns (error: Option<Error>)
      requires repository.Valid() && c.order(id) != NO_ID
      modifies repository
      ensures repository.Valid()
      ensures Performs(old(repository.Contents()), StopStep(id, StopOrder(c, id), c.clock(id).stopped),
                       repository.Contents(), error)
    {
      hide StoreSteps.Valid, Outcome;
      var r := repository.RequestStop(id, StopOrder(c, id), c.clock(id).stopped);
      error := ErrorOf(r);
    }

    method ExpireJob(c: Controller, job: Job) returns (error: Option<Error>)
      requires repository.Valid() && job.id in repository.jobs && repository.jobs[job.id] == job
        && c.order(job.id) != NO_ID
      modifies repository
      ensures repository.Valid()
      ensures Expired(c, old(repository.Contents()), job.id).Ok? ==>
        error.None? && repository.Contents() == Expired(c, old(repository.Contents()), job.id).value
    {
      hide StoreSteps.Valid, SetJobStatus, RequestStop;
      if job.status == Queued {
        var r := repository.SetJobStatus(job.id, Failed, ExpiredInQueue, c.clock(job.id).turn);
        error := ErrorOf(r);
      } else {
        error := StopJob(c, job.id);
      }
    }

    method DispatchJob(c: Controller, job: Job) returns (error: Option<Error>)
      requires repository.Valid() && job.id in repository.jobs && c.order(job.id) != NO_ID && job.assignment.Some?
      requires var stored := repository.jobs[job.id];
        PlannedJob(stored) && stored.assignment == job.assignment && stored.policy == job.policy
      modifies repository
      ensures repository.Valid()
      ensures Dispatch(c, old(repository.Contents()), job.id).Ok? ==>
        error.None? && repository.Contents() == Dispatch(c, old(repository.Contents()), job.id).value
    {
      hide StoreSteps.Valid, SetJobStatus, CommitAssignment;
      var p := Rebooked(job);
      var r := repository.CommitAssignment(job.id, p, StartOrder(c, job.id, p.serverId), c.clock(job.id).turn);
      if r == Err(Conflict) {
        // The reservation stays until a safe retry or its end.
        var noted := repository.SetJobStatus(job.id, Assigned, WaitingForSafeGPU, c.clock(job.id).turn);
        return ErrorOf(noted);
      }
      error := ErrorOf(r);
    }

    /** One turn of the pass, on the job as it was listed. */
    method Turn(c: Controller, listed: Job) returns (error: Option<Error>)
      requires repository.Valid() && listed.id in repository.jobs && repository.jobs[listed.id] == listed
      requires c.order(listed.id) !in repository.commands && c.order(listed.id) != NO_ID
      modifies repository
      ensures repository.Valid() && error.None?
      ensures SweepJob(c, old(repository.Contents()), listed.id).Ok?
      ensures repository.Contents() == SweepJob(c, old(repository.Contents()), listed.id).value
    {
      hide StoreSteps.Valid, Recovered, Warned, Expired, Dispatch, OnlyTouches, TimeWindow.Contains, TimeWindow.Valid,
           Settled, SamePlan;
      TurnSettles(c, repository.Contents(), listed.id);
      RecoveredTouches(c, repository.Contents(), listed.id);
      var job := RecoverTrainingUpload(c, listed);
      if job.status.Terminal() {
        return None;
      }
      var window := job.RequestedWindow();
      if job.assignment.Some? {
        window := job.assignment.value.Window();
      }
      if !window.Valid() {
        return None;
      }
      var now := c.clock(job.id).turn;
      if now >= window.end {
        error := ExpireJob(c, job);
        return;
      }
      WarnedTouches(c, repository.Contents(), job.id);
      RequestCheckpoint(c, job);
      if job.status != Assigned || job.assignment.None? || job.assignment.value.state != PlannedState
        || !window.Contains(now) {
        return None;
      }
      if c.enabled.Some? && job.org !in c.enabled.value {
        return None;
      }
      error := DispatchJob(c, job);
    }

    /** The jobs the caller may see, by identifier. */
    method ListScopedJobs(c: Controller) returns (jobs: seq<Job>)
      requires repository.Valid()
      ensures jobs == Sorting.Filter((j: Job) => c.scope.Sees(j), SnapshotJobs(repository.Contents()))
    {
      hide StoreSteps.Valid, SnapshotJobs;
      var all, keys := Values(repository.jobs);
      jobs := [];
      ghost var sees := (j: Job) => c.scope.Sees(j);
      for i := 0 to |all|
        invariant jobs == Sorting.Filter(sees, all[..i])
      {
        assert all[..i + 1] == all[..i] + [all[i]];
        Sorting.FilterAppend(sees, all[..i], [all[i]]);
        if c.scope.Sees(all[i]) {
          jobs := jobs + [all[i]];
        }
      }
      assert all[..|all|] == all;
      ListedIsSnapshot(repository.Contents(), all, keys, sees);
      jobs := Sorting.Sort(JobIdBefore, jobs);
    }

    /** The execution pass: it performs exactly the specified sweep and never fails. */
    method ProcessReservations(c: Controller) returns (error: Option<Error>)
      requires repository.Valid() && Orders(c, repository.Contents(), Visited(c, repository.Contents()))
      modifies repository
      ensures repository.Valid() && error.None?
      ensures var before := old(repository.Contents());
        SweepAll(c, before, Visited(c, before)).Ok?
          && repository.Contents() == SweepAll(c, before, Visited(c, before)).value
    {
      hide StoreSteps.Valid, Orders, OnlyTouches, Settled, DistinctIds, JobsOk, ServersOk, SweepJob, PassTouches;
      ghost var before := repository.Contents();
      ghost var ids := Visited(c, before);
      A.ValidSnapshot(before);
      VisitedExactly(c, before);
      PassSettles(c, before, ids);
      var jobs := ListScopedJobs(c);
      ListedMatch(c, before, jobs);
      assert ids[0..] == ids;
      for i := 0 to |jobs|
        invariant repository.Valid()
        invariant SweepAll(c, repository.Contents(), ids[i..]) == SweepAll(c, before, ids)
        invariant Orders(c, repository.Contents(), ids[i..]) && DistinctIds(ids[i..])
        invariant forall k :: i <= k < |jobs| ==>
          jobs[k].id in repository.jobs && repository.jobs[jobs[k].id] == jobs[k]
      {
        var id := jobs[i].id;
        ghost var mid, rest := repository.Contents(), ids[i..];
        assert rest[0] == id && rest[1..] == ids[i + 1..];
        FreshOrder(c, mid, rest, id);
        TurnSettles(c, mid, id);
        error := Turn(c, jobs[i]);
        if error.Some? {
          return;
        }
        OrdersRemain(c, mid, repository.Contents(), rest);
        OthersStay(mid, repository.Contents(), id, c.order(id));
        forall k | i + 1 <= k < |jobs| ensures jobs[k].id in repository.jobs && repository.jobs[jobs[k].id] == jobs[k] {
          assert ids[k] == rest[1..][k - i - 1];
          assert ids[k] in rest[1..];
        }
      }
      assert ids[|jobs|..] == [];
      error := None;
    }

    /** Replanning through the planner: always accepted, whatever the repository holds. */
    method ReplanOnce(config: Planner.Config, now: Time) returns (r: Result<nat>)
      requires repository.Valid() && config.offlineAfter == repository.offlineAfter
      modifies repository
      ensures repository.Valid() && r.Ok?
      ensures var before := old(repository.Contents());
        var plan := Planner.PlanReservations(config, SnapshotJobs(before), SnapshotServers(before), now);
        && plan.Ok? && repository.Contents() == Apply(before, ReplanStep(now, plan))
        && Replan(before, now, plan.value).Ok? && r.value == Replan(before, now, plan.value).value.count
    {
      hide StoreSteps.Valid, SnapshotJobs, SnapshotServers, Replan, ReplanReservations, Planner.PlanReservations;
      A.PlanIsAccepted(repository.Contents(), config, now);
      r := repository.ReplanReservations(now, (jobs, servers) => Planner.PlanReservations(config, jobs, servers, now));
    }

    /** One cycle: an execution pass, a planner run, and a second pass for what has just become due. */
    method ScheduleOnce(c: Controller, config: Planner.Config, now: Time, d: Controller) returns (r: Result<nat>)
      requires repository.Valid() && config.offlineAfter == repository.offlineAfter
      requires Orders(c, repository.Contents(), Visited(c, repository.Contents()))
      requires var planned := PlanApplied(config, Swept(c, repository.Contents()), now);
        Orders(d, planned, Visited(d, planned))
      modifies repository
      ensures repository.Valid() && r.Ok?
      ensures var swept := Swept(c, old(repository.Contents()));
        && repository.Contents() == Swept(d, PlanApplied(config, swept, now))
        && var plan := Planner.PlanReservations(config, SnapshotJobs(swept), SnapshotServers(swept), now);
           plan.Ok? && Replan(swept, now, plan.value).Ok? && r.value == Replan(swept, now, plan.value).value.count
    {
      hide StoreSteps.Valid, Orders, SweepAll, Visited, Replan, SnapshotJobs, SnapshotServers,
           Planner.PlanReservations, Apply;
      SweepKeepsTimeout(c, repository.Contents());
      var failed := ProcessReservations(c);
      match failed {
        case Some(e) => return Err(e);
        case None =>
      }
      r := ReplanOnce(config, now);
      if r.Err? {
        return;
      }
      failed := ProcessReservations(d);
      match failed {
        case Some(e) => return Err(e);
        case None =>
      }
    }
  }

  lemma SweepKeepsTimeout(c: Controller, st: State)
    requires StoreSteps.Valid(st) && Orders(c, st, Visited(c, st))
    ensures Swept(c, st).offlineAfter == st.offlineAfter
  {
    hide StoreSteps.Valid, Orders, SweepAll, Visited, JobsOk, ServersOk, PassTouches, Settled, DistinctIds;
    A.ValidSnapshot(st);
    VisitedExactly(c, st);
    PassSettles(c, st, Visited(c, st));
    PassKeepsTimeout(c, st, Swept(c, st), Visited(c, st));
  }

  lemma PassKeepsTimeout(c: Controller, st: State, next: State, ids: seq<Id>)
    requires PassTouches(c, st, next, ids)
    ensures next.offlineAfter == st.offlineAfter
  {
  }

  lemma ListedIsSnapshot(st: State, all: seq<Job>, keys: seq<Id>, sees: Job -> bool)
    requires StoreSteps.Valid(st)
    requires |keys| == |all| && DistinctIds(keys) && forall k :: k in st.jobs ==> k in keys
    requires forall i :: 0 <= i < |all| ==> keys[i] in st.jobs && all[i] == st.jobs[keys[i]]
    ensures Sorting.Sort(JobIdBefore, Sorting.Filter(sees, all)) == Sorting.Filter(sees, SnapshotJobs(st))
  {
    hide StoreSteps.Valid, JobIdBefore, Exclusive, Sorting.Sorted;
    ValidForRelease(st);
    JobIdBeforeMeans();
    ValuesAreDistinct(st.jobs, all, keys, (j: Job) => j.id);
    SortedSnapshot(st.jobs, all, (j: Job) => j.id, JobIdBefore);
    ListedAreOrdered(st, all);
    Sorting.SortFilter(JobIdBefore, sees, all);
  }

  lemma JobIdBeforeMeans()
    ensures forall a, b :: JobIdBefore(a, b) <==> a.id < b.id
  {
  }

  lemma ListedAreOrdered(st: State, all: seq<Job>)
    requires (forall x :: x in all ==> x in st.jobs.Values) && forall k :: k in st.jobs ==> st.jobs[k].id == k
    ensures Sorting.StrictTotalOn(JobIdBefore, all)
  {
    forall x | x in all ensures x.id in st.jobs && st.jobs[x.id] == x {
      var k := Sorting.KeyOf(st.jobs, x);
    }
  }

  lemma ListedMatch(c: Controller, st: State, jobs: seq<Job>)
    requires JobsOk(st.jobs) && jobs == Sorting.Filter((j: Job) => c.scope.Sees(j), SnapshotJobs(st))
    ensures |Visited(c, st)| == |jobs| && forall i :: 0 <= i < |jobs| ==> Visited(c, st)[i] == jobs[i].id
    ensures forall i :: 0 <= i < |jobs| ==> jobs[i].id in st.jobs && st.jobs[jobs[i].id] == jobs[i]
  {
    hide JobOk, SnapshotJobs;
    A.SnapshotJobsOk(st);
    Sorting.FilterMembers((j: Job) => c.scope.Sees(j), SnapshotJobs(st));
  }

  lemma OthersStay(st: State, next: State, id: Id, command: Id)
    requires OnlyTouches(st, next, id, command)
    ensures forall k :: k in st.jobs && k != id ==> k in next.jobs && next.jobs[k] == st.jobs[k]
  {
  }

  /** A booking the cycle's planner run makes, and whose window contains the moment of its turn in the second pass, is
      on its way at the end of the cycle, or still planned at that place. */
  lemma CycleLaunchesDue(config: Planner.Config, st: State, now: Time, d: Controller, plans: seq<PlanEntry>,
                         e: PlanEntry, start: Time, end: Time)
    requires StoreSteps.Valid(st) && config.offlineAfter == st.offlineAfter
    requires Planner.PlanReservations(config, SnapshotJobs(st), SnapshotServers(st), now) == Ok(plans)
    requires var planned := PlanApplied(config, st, now); Orders(d, planned, Visited(d, planned)) && d.scope.Everything?
    requires e in plans && e.placement.Some? && e.jobId in st.jobs
    requires st.jobs[e.jobId].neededAt == Needed(start) && EndOf(st.jobs[e.jobId]) == Some(end)
    requires start <= d.clock(e.jobId).turn < end
    ensures var last := Swept(d, PlanApplied(config, st, now));
      && e.jobId in last.jobs && last.jobs[e.jobId].assignment.Some?
      && var job := last.jobs[e.jobId];
         && job.assignment.value.serverId == e.placement.value.serverId
         && job.assignment.value.gpus == e.placement.value.gpus
         && (job.assignment.value.state == PlannedState || job.status == Starting)
  {
    hide StoreSteps.Valid, Orders, SweepAll, Visited, Replan, SnapshotJobs, SnapshotServers, Planner.PlanReservations,
         Apply, PlacedJob, Claimable, EndOf;
    A.PlanIsAccepted(st, config, now);
    I.ReplannedIsValid(st, now, plans);
    I.ReplanWrites(st, now, plans);
    I.ReplannedJobs(st, now, plans);
    I.ClaimedAreLive(st, now, plans);
    BookedIsPlanned(st.jobs[e.jobId], e, now, start, end);
    SweepIsComplete(d, PlanApplied(config, st, now), e.jobId, start, end);
  }

  lemma BookedIsPlanned(job: Job, e: PlanEntry, now: Time, start: Time, end: Time)
    requires e.placement.Some? && job.neededAt == Needed(start) && EndOf(job) == Some(end)
    ensures var booked := PlacedJob(job, e, now);
      && booked.assignment.Some? && booked.assignment.value.state == PlannedState && TimeIs(booked, start, end)
      && booked.assignment.value.serverId == e.placement.value.serverId
      && booked.assignment.value.gpus == e.placement.value.gpus
      && (!job.status.Terminal() ==> booked.status == Assigned)
  {
    WindowMeans(job);
  }
}
