/** Replanning keeps the invariant for any list of entries the store accepts, not only for honest plans. */
module ReplanInvariant {
  import opened Domain
  import opened Accounting
  import opened Calendar
  import opened StoreSpec
  import opened StoreSteps
  import opened StoreInvariant
  import Sorting

  // ---------------------------------------------------------------- The snapshot given to the planner

  lemma SnapshotHasEverything(st: State)
    ensures forall j :: j in SnapshotJobs(st) <==> j in st.jobs.Values
    ensures forall s :: s in SnapshotServers(st) <==> s in st.servers.Values
  {
    Sorting.SortPermutes(JobIdBefore, Sorting.Elements(st.jobs.Values));
    Sorting.SortPermutes(ServerIdBefore, Sorting.Elements(st.servers.Values));
  }

  lemma UnplannedAreBooked(st: State, plans: seq<PlanEntry>)
    requires WellKeyed(st.jobs)
    ensures var bookings := NotPlanned(SnapshotJobs(st), plans);
      forall k :: k in st.jobs && !Planned(plans, k) ==> st.jobs[k] in bookings
  {
    SnapshotHasEverything(st);
    Sorting.FilterMembers((j: Job) => !Planned(plans, j.id), SnapshotJobs(st));
    assert forall k :: k in st.jobs ==> st.jobs[k] in st.jobs.Values;
  }

  // ---------------------------------------------------------------- One accepted entry

  /** The host behind an accepted placement. */
  lemma AcceptedHost(st: State, at: Time, job: Job, p: Placement, bookings: seq<Job>) returns (server: Server)
    requires ServersOk(st) && PlacementOpen(st, job, p, SnapshotServers(st), bookings, at)
    ensures p.serverId in st.servers && st.servers[p.serverId] == server
    ensures Eligible(job, server, at, st.offlineAfter)
    ensures PlacementMatches(job, ProjectServer(job, server, bookings, at), p)
  {
    SnapshotHasEverything(st);
    ProjectAllMembers(job, SnapshotServers(st), bookings, at, st.offlineAfter);
    hide PlacementMatches, ProjectServer, Eligible, ServerOk, ProjectAll;
    var projected :| projected in CalendarServers(job, SnapshotServers(st), bookings, at, st.offlineAfter)
      && projected.id == p.serverId && PlacementMatches(job, projected, p);
    server :| server in SnapshotServers(st) && Eligible(job, server, at, st.offlineAfter)
      && projected == ProjectServer(job, server, bookings, at);
    assert projected.id == server.id by { ProjectServerKeepsIdentity(job, server, bookings, at); }
    var key := Sorting.KeyOf(st.servers, server);
  }

  lemma ProjectServerKeepsIdentity(job: Job, server: Server, bookings: seq<Job>, at: Time)
    ensures ProjectServer(job, server, bookings, at).id == server.id
    ensures ProjectServer(job, server, bookings, at).org == server.org
  {
  }

  lemma ProjectedMatchIsClear(job: Job, server: Server, p: Placement, bookings: seq<Job>, at: Time, uuid: Id)
    requires ServerOk(server) && PlacementMatches(job, ProjectServer(job, server, bookings, at), p) && uuid in p.gpus
    ensures forall b :: b in bookings ==> !Conflicts(b, job, server.id, uuid)
  {
    var projected := ProjectServer(job, server, bookings, at);
    var g :| g in projected.gpus && g.uuid == uuid;
    var i :| 0 <= i < |projected.gpus| && projected.gpus[i] == g;
    assert server.gpus[i] in server.gpus;
    hide Conflicts, ProjectGPU;
    OpenExactly(job, server.id, server.gpus[i], bookings, at);
  }

  lemma ConflictsReads(j: Job, k: Job, bookings: seq<Job>)
    requires SameRequest(j, k)
    ensures forall b, s, u :: b in bookings ==> Conflicts(b, j, s, u) == Conflicts(b, k, s, u)
  {
  }

  /** An accepted placement conflicts with no booking, on a host of the job's organisation. */
  lemma AcceptedIsClear(st: State, at: Time, entry: PlanEntry, bookings: seq<Job>)
    requires ServersOk(st) && entry.jobId in st.jobs && entry.placement.Some?
    requires EntryValid(st, at, entry, SnapshotServers(st), bookings)
    ensures var p, job := entry.placement.value, st.jobs[entry.jobId];
      && p.serverId in st.servers && SameOrganization(job.org, st.servers[p.serverId].org)
      && NO_ID !in p.gpus && DistinctIds(p.gpus) && |p.gpus| == job.resources.gpuCount
      && (forall u, b :: u in p.gpus && b in bookings ==> !Conflicts(b, job, p.serverId, u))
  {
    var p := entry.placement.value;
    var job := st.jobs[entry.jobId].(assignment := None, policy := entry.policy);
    var server := AcceptedHost(st, at, job, p, bookings);
    assert ServerOk(server);
    ConflictsReads(job, st.jobs[entry.jobId], bookings);
    hide Conflicts, ServerOk, ProjectServer, PlacementOpen;
    forall u, b | u in p.gpus && b in bookings ensures !Conflicts(b, st.jobs[entry.jobId], p.serverId, u) {
      ProjectedMatchIsClear(job, server, p, bookings, at, u);
    }
  }

  /** A replanned job is well formed, undispatched and still asks for the same. */
  lemma PlacedJobOk(job: Job, entry: PlanEntry, at: Time)
    requires JobOk(job) && job.Replannable(at)
    requires entry.placement.Some? ==>
      var p := entry.placement.value;
      NO_ID !in p.gpus && DistinctIds(p.gpus) && |p.gpus| == job.resources.gpuCount && job.RequestedWindow().Valid()
    ensures var placed := PlacedJob(job, entry, at);
      && JobOk(placed) && SameRequest(job, placed) && job.events <= placed.events
      && !placed.status.Terminal() && !Dispatched(placed) && !Dispatched(job)
      && (job.assignment.Some? ==> job.assignment.value.commandId == NO_ID)
      && (placed.assignment.Some? <==> entry.placement.Some?)
      && (placed.assignment.Some? ==>
            && placed.assignment.value.serverId == entry.placement.value.serverId
            && placed.assignment.value.gpus == entry.placement.value.gpus
            && placed.assignment.value.commandId == NO_ID
            && placed.assignment.value.Window() == job.RequestedWindow())
  {
  }

  // ---------------------------------------------------------------- The batch so far

  /** What the store will hold: the jobs outside the plan and the entries accepted so far. */
  ghost function Committed(st: State, plans: seq<PlanEntry>, changed: map<Id, Job>): map<Id, Job> {
    (map k | k in st.jobs && !Planned(plans, k) :: st.jobs[k]) + changed
  }

  ghost predicate Replaced(st: State, at: Time, id: Id, job: Job) {
    && id in st.jobs && st.jobs[id].Replannable(at) && !Dispatched(st.jobs[id])
    && (st.jobs[id].assignment.Some? ==> st.jobs[id].assignment.value.commandId == NO_ID)
    && job.id == id && JobOk(job) && !job.status.Terminal() && !Dispatched(job) && SameRequest(st.jobs[id], job)
    && st.jobs[id].events <= job.events
    && (job.assignment.Some? ==> job.assignment.value.commandId == NO_ID)
    && Tenant(st.servers, job)
  }

  /** Every assignment is among the bookings, and no two overlap. */
  ghost predicate Booked(jobs: map<Id, Job>, bookings: seq<Job>) {
    && JobsOk(jobs) && CalendarExclusive(jobs)
    && forall k :: k in jobs && jobs[k].assignment.Some? ==> jobs[k] in bookings
  }

  ghost predicate BatchOk(st: State, at: Time, plans: seq<PlanEntry>, batch: Batch) {
    && (forall id :: id in batch.changed ==> Planned(plans, id) && Replaced(st, at, id, batch.changed[id]))
    && Booked(Committed(st, plans, batch.changed), batch.bookings)
  }

  lemma ClearKeepsBooked(jobs: map<Id, Job>, job: Job, bookings: seq<Job>, more: seq<Job>)
    requires Booked(jobs, bookings) && job.id !in jobs && job.id != NO_ID && JobOk(job)
    requires bookings <= more && (job.assignment.Some? ==> job in more)
    requires job.assignment.Some? ==> job.assignment.value.Window() == job.RequestedWindow()
    requires job.assignment.Some? ==>
      forall u, b :: u in job.assignment.value.gpus && b in bookings ==>
        !Conflicts(b, job, job.assignment.value.serverId, u)
    ensures Booked(jobs[job.id := job], more)
  {
    var next := jobs[job.id := job];
    forall k, s, u | k in jobs && Books(jobs[k], s, u) && Books(job, s, u)
      ensures !jobs[k].assignment.value.Window().Overlaps(job.assignment.value.Window())
    {
      assert JobOk(jobs[k]);
      assert jobs[k] in bookings && !Conflicts(jobs[k], job, s, u);
    }
    hide JobOk, Books, Conflicts;
  }

  lemma AcceptKeepsBatch(st: State, at: Time, plans: seq<PlanEntry>, entry: PlanEntry, batch: Batch, placed: Job)
    requires Valid(st) && BatchOk(st, at, plans, batch)
    requires entry in plans && entry.jobId in st.jobs && st.jobs[entry.jobId].Replannable(at)
      && entry.jobId !in batch.changed
    requires EntryValid(st, at, entry, SnapshotServers(st), batch.bookings)
    requires placed == PlacedJob(st.jobs[entry.jobId], entry, at)
    ensures BatchOk(st, at, plans, Batch(batch.changed[entry.jobId := placed],
                                         if entry.placement.Some? then batch.bookings + [placed] else batch.bookings,
                                         batch.count))
    ensures Replaced(st, at, entry.jobId, placed)
  {
    hide JobOk, Valid, Committed, EntryValid, PlacedJob, Replaced, Conflicts, Booked, Planned;
    AcceptedIsReplaced(st, at, entry, batch.bookings, placed);
    EntriesArePlanned(plans, entry);
    CommittedStep(st, plans, batch.changed, placed);
    var after := if entry.placement.Some? then batch.bookings + [placed] else batch.bookings;
    ClearKeepsBooked(Committed(st, plans, batch.changed), placed, batch.bookings, after);
  }

  lemma EntriesArePlanned(plans: seq<PlanEntry>, entry: PlanEntry)
    requires entry in plans
    ensures Planned(plans, entry.jobId)
  {
  }

  lemma CommittedStep(st: State, plans: seq<PlanEntry>, changed: map<Id, Job>, job: Job)
    requires Planned(plans, job.id) && job.id !in changed
    ensures job.id !in Committed(st, plans, changed)
    ensures Committed(st, plans, changed[job.id := job]) == Committed(st, plans, changed)[job.id := job]
  {
  }

  lemma AcceptedIsReplaced(st: State, at: Time, entry: PlanEntry, bookings: seq<Job>, placed: Job)
    requires Valid(st) && entry.jobId in st.jobs && st.jobs[entry.jobId].Replannable(at)
    requires EntryValid(st, at, entry, SnapshotServers(st), bookings)
    requires placed == PlacedJob(st.jobs[entry.jobId], entry, at)
    ensures Replaced(st, at, entry.jobId, placed) && JobOk(placed) && placed.id == entry.jobId != NO_ID
    ensures placed.assignment.Some? <==> entry.placement.Some?
    ensures placed.assignment.Some? ==>
      && placed.assignment.value.Window() == placed.RequestedWindow()
      && forall u, b :: u in placed.assignment.value.gpus && b in bookings ==>
           !Conflicts(b, placed, placed.assignment.value.serverId, u)
  {
    var job := st.jobs[entry.jobId];
    assert JobOk(job) && job.id == entry.jobId;
    if entry.placement.Some? {
      AcceptedIsClear(st, at, entry, bookings);
    }
    hide Valid;
    PlacedJobOk(job, entry, at);
    hide PlacedJob, EntryValid;
    ConflictsReads(job, placed, bookings);
    hide Conflicts, JobOk;
  }

  function Ids(plans: seq<PlanEntry>): set<Id> {
    set e | e in plans :: e.jobId
  }

  lemma IdsStep(plans: seq<PlanEntry>, done: nat)
    requires done < |plans| && forall i, j :: 0 <= i < j < |plans| ==> plans[i].jobId != plans[j].jobId
    ensures plans[done].jobId !in Ids(plans[..done])
    ensures Ids(plans[..done + 1]) == Ids(plans[..done]) + {plans[done].jobId}
  {
    assert plans[..done + 1] == plans[..done] + [plans[done]];
  }

  lemma {:induction false} PlaceAllKeepsBatch(st: State, at: Time, plans: seq<PlanEntry>, done: nat, batch: Batch)
    requires Valid(st) && Claimable(st, at, plans) && done <= |plans|
    requires BatchOk(st, at, plans, batch)
    requires batch.changed.Keys == Ids(plans[..done])
    requires PlaceAll(st, at, plans[done..], SnapshotServers(st), batch).Ok?
    ensures var r := PlaceAll(st, at, plans[done..], SnapshotServers(st), batch).value;
      BatchOk(st, at, plans, r) && r.changed.Keys == Ids(plans)
    decreases |plans| - done
  {
    hide BatchOk, Valid, PlacedJob, EntryValid, Replaced, Ids, SnapshotServers, Planned;
    if done < |plans| {
      var entry := plans[done];
      assert entry in plans;
      var placed := PlacedJob(st.jobs[entry.jobId], entry, at);
      assert plans[done..][0] == entry && plans[done..][1..] == plans[done + 1..];
      IdsStep(plans, done);
      AcceptKeepsBatch(st, at, plans, entry, batch, placed);
      var next := Batch(batch.changed[entry.jobId := placed],
                        if entry.placement.Some? then batch.bookings + [placed] else batch.bookings,
                        if entry.placement.Some? && !SamePlace(st.jobs[entry.jobId].assignment, entry.placement.value)
                        then batch.count + 1 else batch.count);
      BatchOkIgnoresCount(st, at, plans, next, batch.count);
      PlaceAllKeepsBatch(st, at, plans, done + 1, next);
    } else {
      assert plans[..done] == plans && plans[done..] == [];
    }
  }

  lemma BatchOkIgnoresCount(st: State, at: Time, plans: seq<PlanEntry>, batch: Batch, count: nat)
    requires BatchOk(st, at, plans, batch.(count := count))
    ensures BatchOk(st, at, plans, batch)
  {
  }

  lemma FewerJobsStayBooked(jobs: map<Id, Job>, fewer: map<Id, Job>, bookings: seq<Job>)
    requires JobsOk(jobs) && CalendarExclusive(jobs)
    requires forall k :: k in fewer ==> k in jobs && fewer[k] == jobs[k] && fewer[k] in bookings
    ensures Booked(fewer, bookings)
  {
    hide JobOk, Books;
  }

  lemma EmptyBatchOk(st: State, at: Time, plans: seq<PlanEntry>)
    requires JobsOk(st.jobs) && CalendarExclusive(st.jobs)
    ensures BatchOk(st, at, plans, Batch(map[], NotPlanned(SnapshotJobs(st), plans), 0))
  {
    hide JobOk, Books, NotPlanned, Planned, Replaced, CalendarExclusive, Booked;
    UnplannedAreBooked(st, plans);
    FewerJobsStayBooked(st.jobs, Committed(st, plans, map[]), NotPlanned(SnapshotJobs(st), plans));
  }

  lemma ValidBooks(st: State)
    requires Valid(st)
    ensures JobsOk(st.jobs) && CalendarExclusive(st.jobs)
  {
  }

  lemma ReplanBatch(st: State, at: Time, plans: seq<PlanEntry>)
    requires Valid(st) && Replan(st, at, plans).Ok?
    ensures var changed := Replan(st, at, plans).value.changed;
      && changed.Keys == Ids(plans)
      && (forall id :: id in changed ==> Replaced(st, at, id, changed[id]))
      && CalendarExclusive(st.jobs + changed)
  {
    hide Valid, BatchOk, Replaced, CalendarExclusive, JobsOk;
    ValidBooks(st);
    EmptyBatchOk(st, at, plans);
    assert plans[0..] == plans && plans[..0] == [];
    PlaceAllKeepsBatch(st, at, plans, 0, Batch(map[], NotPlanned(SnapshotJobs(st), plans), 0));
    BatchCovers(st, at, plans, Replan(st, at, plans).value);
  }

  lemma BatchCovers(st: State, at: Time, plans: seq<PlanEntry>, batch: Batch)
    requires BatchOk(st, at, plans, batch) && batch.changed.Keys == Ids(plans)
    ensures CalendarExclusive(st.jobs + batch.changed)
    ensures forall id :: id in batch.changed ==> Replaced(st, at, id, batch.changed[id])
  {
    assert forall id :: Planned(plans, id) <==> id in batch.changed;
    assert st.jobs + batch.changed == Committed(st, plans, batch.changed);
  }

  // ---------------------------------------------------------------- The step

  lemma ReplanKeepsValid(st: State, at: Time, answer: Result<seq<PlanEntry>>)
    requires Valid(st)
    ensures Valid(Apply(st, ReplanStep(at, answer))) && Progress(st, Apply(st, ReplanStep(at, answer)))
  {
    hide Valid, Progress, Ids, Replan, Replaced, CalendarExclusive;
    UnchangedKeepsValid(st);
    if answer.Ok? && Replan(st, at, answer.value).Ok? {
      var changed := Replan(st, at, answer.value).value.changed;
      ReplanBatch(st, at, answer.value);
      ReplacingKeepsValid(st, at, changed);
    }
  }

  lemma ReplacingKeepsJobs(st: State, at: Time, changed: map<Id, Job>)
    requires JobsOk(st.jobs) && Tenants(st) && Exclusive(st.jobs)
    requires forall id :: id in changed ==> Replaced(st, at, id, changed[id])
    ensures var jobs := st.jobs + changed; JobsOk(jobs) && Tenants(st.(jobs := jobs)) && Exclusive(jobs)
    ensures forall s, u :: ReservedIn(s, st.jobs + changed, u) ==> ReservedIn(s, st.jobs, u)
  {
    hide JobOk, Tenant, SameRequest, Job.Replannable;
    var jobs := st.jobs + changed;
    forall k, s, u | k in jobs && Holds(jobs[k], s, u)
      ensures k in st.jobs && k !in changed && Holds(st.jobs[k], s, u) {
    }
    assert forall k :: k in jobs ==> Tenant(st.servers, jobs[k]);
  }

  lemma ReplacingKeepsCommands(st: State, at: Time, changed: map<Id, Job>)
    requires CommandsOk(st.jobs, st.commands)
    requires forall id :: id in changed ==> Replaced(st, at, id, changed[id])
    ensures CommandsOk(st.jobs + changed, st.commands)
  {
    hide JobOk, Tenant, SameRequest, Job.Replannable;
    var jobs := st.jobs + changed;
    forall k | k in st.commands ensures CommandOk(jobs, st.commands, st.commands[k]) {
      assert CommandOk(st.jobs, st.commands, st.commands[k]);
    }
    forall k | k in jobs ensures LaunchOk(st.commands, jobs[k]) {
      if k !in changed { assert LaunchOk(st.commands, st.jobs[k]); }
    }
  }

  lemma ReplacingKeepsValid(st: State, at: Time, changed: map<Id, Job>)
    requires Valid(st) && CalendarExclusive(st.jobs + changed)
    requires forall id :: id in changed ==> Replaced(st, at, id, changed[id])
    ensures Valid(st.(jobs := st.jobs + changed)) && Progress(st, st.(jobs := st.jobs + changed))
  {
    hide JobsOk, CommandsOk, Tenants, CalendarExclusive, ServerOk, GPUsUnshared, Exclusive, ReservedIn, Replaced,
         Progress;
    var jobs := st.jobs + changed;
    ReplacingProgresses(st, at, changed);
    ReplacingKeepsJobs(st, at, changed);
    ReplacingKeepsCommands(st, at, changed);
    forall s | s in st.servers ensures GPUsAccounted(s, st.servers[s].gpus, jobs) {
      assert GPUsAccounted(s, st.servers[s].gpus, st.jobs);
    }
  }

  lemma ReplacingProgresses(st: State, at: Time, changed: map<Id, Job>)
    requires Valid(st)
    requires forall id :: id in changed ==> Replaced(st, at, id, changed[id])
    ensures Progress(st, st.(jobs := st.jobs + changed))
  {
    hide CommandOk, LaunchOk, CommandEvolves, Tenant, Evolves, ServersOk, Exclusive, CalendarExclusive, GPUsUnshared,
         HeldIsNotFree;
    EvolvesAll(st);
  }

  /** Replanning touches only replannable jobs: hosts, commands and every other job are exactly as before. */
  lemma ReplanIsFramed(st: State, at: Time, answer: Result<seq<PlanEntry>>)
    requires Valid(st)
    ensures var next := Apply(st, ReplanStep(at, answer));
      && next == st.(jobs := next.jobs) && next.jobs.Keys == st.jobs.Keys
      && (forall k :: k in st.jobs && !st.jobs[k].Replannable(at) ==> next.jobs[k] == st.jobs[k])
      && (forall k :: k in st.jobs && next.jobs[k] != st.jobs[k] ==> Replaced(st, at, k, next.jobs[k]))
  {
    hide Valid, Ids, CalendarExclusive, Replan, JobOk, Dispatched, SameRequest, Tenant;
    if answer.Ok? && Replan(st, at, answer.value).Ok? {
      ReplanBatch(st, at, answer.value);
    }
  }
}
