/** The repository never rejects an honest plan: planner and committer walk the same calendar in lockstep. */
module PlannerAgreement {
  import opened Domain
  import opened Calendar
  import opened StoreSpec
  import opened StoreSteps
  import opened StoreInvariant
  import opened ReplanInvariant
  import opened Planner
  import Policy
  import Scheduler
  import Sorting

  // ---------------------------------------------------------------- The snapshot the planner sees

  ghost predicate HostsOk(servers: seq<Server>) {
    Scheduler.DistinctServers(servers) && forall s :: s in servers ==> ServerOk(s)
  }

  lemma HostsAreKeyed(st: State, all: seq<Server>)
    requires ServersOk(st) && forall x :: x in all ==> x in st.servers.Values
    ensures forall x :: x in all ==> x.id in st.servers && st.servers[x.id] == x && ServerOk(x)
  {
    hide ServerOk;
    forall x | x in all ensures x.id in st.servers && st.servers[x.id] == x {
      var k := Sorting.KeyOf(st.servers, x);
    }
  }

  lemma SortedHostsDiffer(all: seq<Server>)
    requires Sorting.Distinct(all) && forall x, y :: x in all && y in all && x.id == y.id ==> x == y
    ensures Scheduler.DistinctServers(Sorting.Sort(ServerIdBefore, all))
  {
    assert Sorting.StrictTotalOn(ServerIdBefore, all);
    Sorting.SortSorts(ServerIdBefore, all);
  }

  lemma SnapshotHostsOk(st: State)
    requires ServersOk(st)
    ensures HostsOk(SnapshotServers(st))
  {
    hide ServerOk, ServersOk, Sorting.Distinct, Scheduler.DistinctServers;
    var all := Sorting.Elements(st.servers.Values);
    HostsAreKeyed(st, all);
    SortedHostsDiffer(all);
    Sorting.SortPermutes(ServerIdBefore, all);
  }

  lemma SnapshotJobsOk(st: State)
    requires JobsOk(st.jobs)
    ensures Policy.DistinctJobs(SnapshotJobs(st)) && Sorting.Distinct(SnapshotJobs(st))
    ensures forall j :: j in SnapshotJobs(st) <==> j.id in st.jobs && st.jobs[j.id] == j
  {
    hide JobOk;
    SnapshotHasEverything(st);
    var all := Sorting.Elements(st.jobs.Values);
    forall x | x in st.jobs.Values ensures x.id in st.jobs && st.jobs[x.id] == x {
      var k := Sorting.KeyOf(st.jobs, x);
    }
    assert forall x: Job :: x.id in st.jobs && st.jobs[x.id] == x ==> x in st.jobs.Values;
    assert Sorting.StrictTotalOn(JobIdBefore, all);
    Sorting.SortSorts(JobIdBefore, all);
  }

  // ---------------------------------------------------------------- The projected hosts

  lemma ProjectedGPUs(job: Job, s: Server, bookings: seq<Job>, now: Time)
    requires ServerOk(s)
    ensures var p := ProjectServer(job, s, bookings, now);
      && DistinctUUIDs(p.gpus) && (forall g :: g in p.gpus ==> g.uuid != NO_ID)
      && p == s.(gpus := p.gpus)
  {
    hide ProjectGPU, Job.RequestedWindow;
    var p := ProjectServer(job, s, bookings, now);
    forall i | 0 <= i < |s.gpus| ensures p.gpus[i].uuid == s.gpus[i].uuid != NO_ID {
      assert s.gpus[i] in s.gpus;
      OpenExactly(job, s.id, s.gpus[i], bookings, now);
    }
  }

  /** Everything the scheduler needs of a projection. */
  ghost predicate Offered(job: Job, cs: seq<Server>, now: Time, offlineAfter: int) {
    && Scheduler.DistinctServers(cs)
    && forall s :: s in cs ==>
         DistinctUUIDs(s.gpus) && (forall g :: g in s.gpus ==> g.uuid != NO_ID) && Eligible(job, s, now, offlineAfter)
  }

  lemma {:induction false} ProjectAllOffers(job: Job, servers: seq<Server>, bookings: seq<Job>, now: Time,
                                            offlineAfter: int)
    requires HostsOk(servers)
    ensures Offered(job, ProjectAll(job, servers, bookings, now, offlineAfter), now, offlineAfter)
    ensures forall p :: p in ProjectAll(job, servers, bookings, now, offlineAfter) ==>
      exists s :: s in servers && s.id == p.id
  {
    hide ServerOk, DistinctUUIDs, ProjectServer, Server.Schedulable, SameOrganization;
    if servers != [] {
      assert servers == [servers[0]] + servers[1..];
      ProjectAllOffers(job, servers[1..], bookings, now, offlineAfter);
      ProjectedGPUs(job, servers[0], bookings, now);
      ScheduleReads(servers[0], ProjectServer(job, servers[0], bookings, now), now, offlineAfter);
      var rest := ProjectAll(job, servers[1..], bookings, now, offlineAfter);
      forall p | p in rest ensures p.id != servers[0].id {
        var s :| s in servers[1..] && s.id == p.id;
        var i :| 0 <= i < |servers[1..]| && servers[1..][i] == s;
        assert servers[i + 1] == s;
      }
    }
  }

  lemma ScheduleReads(s: Server, p: Server, now: Time, offlineAfter: int)
    requires p == s.(gpus := p.gpus)
    ensures p.Schedulable(now, offlineAfter) == s.Schedulable(now, offlineAfter)
  {
  }

  lemma CalendarOffers(job: Job, servers: seq<Server>, bookings: seq<Job>, now: Time, offlineAfter: int)
    requires HostsOk(servers)
    ensures Offered(job, CalendarServers(job, servers, bookings, now, offlineAfter), now, offlineAfter)
  {
    ProjectAllOffers(job, servers, bookings, now, offlineAfter);
    hide Offered, ProjectAll;
    NothingOffered(job, now, offlineAfter);
  }

  lemma NothingOffered(job: Job, now: Time, offlineAfter: int)
    ensures Offered(job, [], now, offlineAfter)
  {
  }

  // ---------------------------------------------------------------- One entry

  lemma EntryAlwaysDecided(config: Config, job: Job, servers: seq<Server>, bookings: seq<Job>, now: Time)
    requires job.resources.gpuCount > 0
    ensures EntryFor(config, job, servers, bookings, now).Ok?
    ensures EntryFor(config, job, servers, bookings, now).value.jobId == job.id
    ensures EntryFor(config, job, servers, bookings, now).value.policy == job.policy
  {
    hide Scheduler.Candidates, Sorting.Sort;
  }

  lemma PlacedEntry(config: Config, job: Job, servers: seq<Server>, bookings: seq<Job>, now: Time)
    requires EntryFor(config, job, servers, bookings, now).Ok?
      && EntryFor(config, job, servers, bookings, now).value.placement.Some?
    ensures var entry := EntryFor(config, job, servers, bookings, now).value;
      var hosts := CalendarServers(job, servers, bookings, now, config.offlineAfter);
      var plan := Scheduler.Plan(config.strategy, job, hosts, now, config.offlineAfter);
      && job.RequestedWindow().Valid() && now < job.RequestedWindow().end
      && plan.Ok? && entry.placement == Some(plan.value.(policy := job.policy)) && entry.reason == HeldForWindow
  {
    hide Scheduler.Plan, CalendarServers;
  }

  /** What the scheduler chose passes the placement check. */
  lemma ChosenMatches(strategy: Strategy, job: Job, cs: seq<Server>, now: Time, offlineAfter: int)
    requires job.resources.gpuCount > 0 && job.selector == map[] && Offered(job, cs, now, offlineAfter)
    requires Scheduler.Plan(strategy, job, cs, now, offlineAfter).Ok?
    ensures var p := Scheduler.Plan(strategy, job, cs, now, offlineAfter).value;
      exists s :: s in cs && s.id == p.serverId && s.Schedulable(now, offlineAfter) && PlacementMatches(job, s, p)
  {
    hide Scheduler.Plan, Scheduler.Fits, Scheduler.CandidateBefore, Resources.Matches, DistinctIds, DistinctUUIDs,
         Server.Schedulable,
         SameOrganization;
    Scheduler.PlanIsOptimal(strategy, job, cs, now, offlineAfter);
    var p := Scheduler.Plan(strategy, job, cs, now, offlineAfter).value;
    var s :| s in cs && Scheduler.Fits(job, s, now, offlineAfter)
      && p == Scheduler.PlacementOf(strategy, Scheduler.CandidateOf(strategy, job, s, now, offlineAfter));
    Scheduler.TakesLeastGPUs(strategy, job, s, now, offlineAfter);
    TakenMatch(job, s, p.gpus);
    assert PlacementMatches(job, s, p);
  }

  lemma TakenMatch(job: Job, s: Server, taken: seq<Id>)
    requires DistinctUUIDs(s.gpus) && forall g :: g in s.gpus ==> g.uuid != NO_ID
    requires forall u :: u in taken ==> exists g :: g in s.gpus && g.uuid == u && job.resources.Matches(g)
    ensures NO_ID !in taken && AllMatch(job, s.gpus, taken)
  {
    hide Resources.Matches;
    forall g | g in s.gpus && g.uuid in taken ensures job.resources.Matches(g) {
      var h :| h in s.gpus && h.uuid == g.uuid && job.resources.Matches(h);
    }
  }

  lemma MatchesReads(j: Job, k: Job, s: Server, p: Placement, q: Placement)
    requires SameRequest(j, k) && j.selector == k.selector && p.gpus == q.gpus
    ensures PlacementMatches(j, s, p) == PlacementMatches(k, s, q)
  {
  }

  /** The stored job behind an evaluated one. */
  ghost predicate Stored(st: State, now: Time, job: Job) {
    job.id in st.jobs && job == st.jobs[job.id].(policy := job.policy) && JobOk(st.jobs[job.id]) && job.Replannable(now)
  }

  lemma PlannedIsValid(st: State, config: Config, job: Job, bookings: seq<Job>, booked: seq<Job>, now: Time)
    requires HostsOk(SnapshotServers(st)) && config.offlineAfter == st.offlineAfter && Stored(st, now, job)
    requires SameBookings(bookings, booked)
    ensures EntryFor(config, job, SnapshotServers(st), bookings, now).Ok?
    ensures EntryValid(st, now, EntryFor(config, job, SnapshotServers(st), bookings, now).value, SnapshotServers(st),
                       booked)
  {
    hide SameBookings, HostsOk, SnapshotServers, EntryFor, PlacementMatches, Scheduler.Plan, CalendarServers, Offered,
         Server.Schedulable;
    var servers := SnapshotServers(st);
    EntryAlwaysDecided(config, job, servers, bookings, now);
    var entry := EntryFor(config, job, servers, bookings, now).value;
    if entry.placement.Some? {
      PlacedEntry(config, job, servers, bookings, now);
      var cs := CalendarServers(job, servers, bookings, now, st.offlineAfter);
      CalendarOffers(job, servers, bookings, now, st.offlineAfter);
      ChosenMatches(config.strategy, job, cs, now, st.offlineAfter);
      var cleared := st.jobs[job.id].(assignment := None, policy := entry.policy);
      CalendarReads(job, cleared, servers, bookings, booked, now, st.offlineAfter);
      var p := Scheduler.Plan(config.strategy, job, cs, now, config.offlineAfter).value;
      var s :| s in cs && s.id == p.serverId && s.Schedulable(now, st.offlineAfter) && PlacementMatches(job, s, p);
      MatchesReads(job, cleared, s, p, entry.placement.value);
    }
  }

  // ---------------------------------------------------------------- The booking lists stay equivalent

  lemma HeldIsPlaced(st: State, now: Time, job: Job, entry: PlanEntry)
    requires Stored(st, now, job) && entry.placement.Some? && entry.jobId == job.id
    ensures BookingOf(Held(job, entry.placement.value)) == BookingOf(PlacedJob(st.jobs[job.id], entry, now))
  {
  }

  lemma BookingsAgree(st: State, now: Time, job: Job, entry: PlanEntry, bookings: seq<Job>, booked: seq<Job>)
    requires Stored(st, now, job) && entry.jobId == job.id && SameBookings(bookings, booked)
    ensures SameBookings(WithHeld(bookings, job, entry),
                         if entry.placement.Some? then booked + [PlacedJob(st.jobs[job.id], entry, now)] else booked)
  {
    hide Held, PlacedJob, BookingOf, Stored;
    if entry.placement.Some? {
      HeldIsPlaced(st, now, job, entry);
    }
  }

  ghost predicate AllStored(st: State, now: Time, queue: seq<Job>) {
    forall j :: j in queue ==> Stored(st, now, j)
  }

  /** The committer accepts entry after entry exactly what the planner decided. */
  lemma {:induction false} Lockstep(st: State, config: Config, queue: seq<Job>, bookings: seq<Job>, batch: Batch,
                                    now: Time)
    requires HostsOk(SnapshotServers(st)) && config.offlineAfter == st.offlineAfter
    requires AllStored(st, now, queue) && SameBookings(bookings, batch.bookings)
    ensures var plan := PlanQueue(config, queue, SnapshotServers(st), bookings, now);
      && plan.Ok? && |plan.value| == |queue|
      && (forall i :: 0 <= i < |queue| ==> plan.value[i].jobId == queue[i].id)
      && (forall e :: e in plan.value ==> e.jobId in st.jobs)
      && PlaceAll(st, now, plan.value, SnapshotServers(st), batch).Ok?
    decreases |queue|
  {
    hide HostsOk, SameBookings, SnapshotServers, EntryFor, EntryValid, PlacedJob, WithHeld, Stored, SamePlace;
    if queue != [] {
      var job, servers := queue[0], SnapshotServers(st);
      assert job in queue;
      StoredShape(st, now, job);
      PlannedIsValid(st, config, job, bookings, batch.bookings, now);
      EntryAlwaysDecided(config, job, servers, bookings, now);
      var entry := EntryFor(config, job, servers, bookings, now).value;
      BookingsAgree(st, now, job, entry, bookings, batch.bookings);
      var placed := PlacedJob(st.jobs[job.id], entry, now);
      var next := Batch(batch.changed[job.id := placed],
                        if entry.placement.Some? then batch.bookings + [placed] else batch.bookings,
                        if entry.placement.Some? && !SamePlace(st.jobs[job.id].assignment, entry.placement.value)
                        then batch.count + 1 else batch.count);
      Lockstep(st, config, queue[1..], WithHeld(bookings, job, entry), next, now);
      var rest := PlanQueue(config, queue[1..], servers, WithHeld(bookings, job, entry), now).value;
      assert ([entry] + rest)[1..] == rest;
    }
  }

  lemma StoredShape(st: State, now: Time, job: Job)
    requires Stored(st, now, job)
    ensures job.id in st.jobs && job.resources.gpuCount > 0
  {
  }

  // ---------------------------------------------------------------- Both start from the same bookings

  lemma QueueIsStored(st: State, config: Config, now: Time)
    requires JobsOk(st.jobs)
    ensures var queue := Queue(config, SnapshotJobs(st), now);
      && AllStored(st, now, queue) && Policy.DistinctJobs(queue)
      && (forall j :: j in SnapshotJobs(st) ==> (Candidate(config, now, j) <==> exists k :: k in queue && k.id == j.id))
  {
    hide JobOk, Job.Replannable, SnapshotJobs, Policy.Ordered, Policy.Decide;
    var jobs := SnapshotJobs(st);
    SnapshotJobsOk(st);
    var candidates := Candidates(config, jobs, now);
    Sorting.FilterMembers((j: Job) => Candidate(config, now, j), jobs);
    CandidatesDistinct(config, jobs, now);
    Policy.OrderedIsSorted(candidates, config.facts, now);
    var queue := Queue(config, jobs, now);
    forall j | j in queue ensures Stored(st, now, j) && exists k :: k in candidates && k.id == j.id {
      var k :| k in candidates && j == Policy.Evaluated(k, config.facts, now);
      ReplannableReads(k, j, now);
    }
    QueueDistinct(candidates, config.facts, now);
    forall j | j in jobs ensures Candidate(config, now, j) <==> exists k :: k in queue && k.id == j.id {
      if Candidate(config, now, j) {
        assert j in candidates;
        assert Policy.Evaluated(j, config.facts, now) in queue;
      }
    }
  }

  lemma ReplannableReads(j: Job, k: Job, now: Time)
    requires k == j.(policy := k.policy)
    ensures k.Replannable(now) == j.Replannable(now)
  {
  }

  lemma {:induction false} CandidatesDistinct(config: Config, jobs: seq<Job>, now: Time)
    requires Policy.DistinctJobs(jobs)
    ensures Policy.DistinctJobs(Candidates(config, jobs, now))
  {
    hide Job.Replannable;
    if jobs != [] {
      CandidatesDistinct(config, jobs[1..], now);
      var rest := Candidates(config, jobs[1..], now);
      Sorting.FilterMembers((j: Job) => Candidate(config, now, j), jobs[1..]);
      forall i | 0 <= i < |rest| ensures rest[i].id != jobs[0].id {
        assert rest[i] in rest;
        var k :| 0 <= k < |jobs[1..]| && jobs[1..][k] == rest[i];
        assert jobs[k + 1] == rest[i];
      }
    }
  }

  lemma QueueDistinct(candidates: seq<Job>, facts: Policy.Facts, now: Time)
    requires Policy.DistinctJobs(candidates)
    ensures Policy.DistinctJobs(Policy.Ordered(candidates, facts, now))
  {
    hide Policy.Decide, Policy.Before, Policy.DistinctJobs;
    var all, queue := Policy.EvaluateAll(candidates, facts, now), Policy.Ordered(candidates, facts, now);
    Policy.EvaluatedStayDistinct(candidates, facts, now);
    Sorting.SortSorts(Policy.Before, all);
    Sorting.SortPermutes(Policy.Before, all);
    SortedJobsAreDistinct(all, queue);
  }

  lemma SortedJobsAreDistinct(all: seq<Job>, queue: seq<Job>)
    requires Policy.DistinctJobs(all) && Sorting.StrictTotalOn(Policy.Before, all)
      && Sorting.Sorted(Policy.Before, queue)
    requires forall j :: j in queue ==> j in all
    ensures Policy.DistinctJobs(queue)
  {
    hide Policy.Before;
    forall i, j | 0 <= i < j < |queue| ensures queue[i].id != queue[j].id {
      assert queue[i] in all && queue[j] in all && Policy.Before(queue[i], queue[j]);
      assert queue[i] != queue[j];
      var a :| 0 <= a < |all| && all[a] == queue[i];
      var b :| 0 <= b < |all| && all[b] == queue[j];
    }
  }

  lemma SameBookingsAsBefore(bookings: seq<Job>)
    ensures SameBookings(bookings, bookings)
  {
  }

  lemma FixedIsNotPlanned(st: State, config: Config, now: Time, plans: seq<PlanEntry>)
    requires JobsOk(st.jobs)
    requires var queue := Queue(config, SnapshotJobs(st), now);
      |plans| == |queue| && forall i :: 0 <= i < |queue| ==> plans[i].jobId == queue[i].id
    ensures NotPlanned(SnapshotJobs(st), plans) == Fixed(config, SnapshotJobs(st), now)
  {
    hide JobOk, Candidate, SnapshotJobs, Queue;
    var jobs, queue := SnapshotJobs(st), Queue(config, SnapshotJobs(st), now);
    QueueIsStored(st, config, now);
    forall j | j in jobs ensures Planned(plans, j.id) <==> Candidate(config, now, j) {
      if Planned(plans, j.id) {
        var e :| e in plans && e.jobId == j.id;
        var i :| 0 <= i < |plans| && plans[i] == e;
        assert queue[i] in queue;
      }
      if Candidate(config, now, j) {
        var k :| k in queue && k.id == j.id;
        var i :| 0 <= i < |queue| && queue[i] == k;
        assert plans[i] in plans;
      }
    }
    Sorting.FilterSame((j: Job) => !Planned(plans, j.id), (j: Job) => !Candidate(config, now, j), jobs);
  }

  lemma QueueIsClaimable(st: State, config: Config, now: Time, plans: seq<PlanEntry>)
    requires JobsOk(st.jobs)
    requires var queue := Queue(config, SnapshotJobs(st), now);
      |plans| == |queue| && forall i :: 0 <= i < |queue| ==> plans[i].jobId == queue[i].id
    ensures Claimable(st, now, plans)
  {
    hide JobOk, Job.Replannable, SnapshotJobs, Queue;
    var queue := Queue(config, SnapshotJobs(st), now);
    QueueIsStored(st, config, now);
    forall e | e in plans ensures e.jobId in st.jobs && st.jobs[e.jobId].Replannable(now) {
      var i :| 0 <= i < |plans| && plans[i] == e;
      assert queue[i] in queue && Stored(st, now, queue[i]);
      ReplannableReads(st.jobs[e.jobId], queue[i], now);
    }
  }

  lemma ValidSnapshot(st: State)
    requires Valid(st)
    ensures JobsOk(st.jobs) && ServersOk(st)
  {
  }

  /** For every valid state the planner succeeds on the snapshot, and the repository accepts the whole plan at the same
      instant: replanning never fails with a conflict. */
  lemma PlanIsAccepted(st: State, config: Config, now: Time)
    requires Valid(st) && config.offlineAfter == st.offlineAfter
    ensures var plan := PlanReservations(config, SnapshotJobs(st), SnapshotServers(st), now);
      && plan.Ok? && Replan(st, now, plan.value).Ok?
      && ReplanReservations(st, now, plan).Ok?
  {
    hide Valid, JobsOk, ServersOk, HostsOk, SnapshotJobs, SnapshotServers, Queue, PlanQueue, Fixed, AllStored,
         SameBookings, PlaceAll,
         NotPlanned, Claimable;
    ValidSnapshot(st);
    SnapshotHostsOk(st);
    QueueIsStored(st, config, now);
    var queue, fixed := Queue(config, SnapshotJobs(st), now), Fixed(config, SnapshotJobs(st), now);
    SameBookingsAsBefore(fixed);
    Lockstep(st, config, queue, fixed, Batch(map[], fixed, 0), now);
    var plans := PlanQueue(config, queue, SnapshotServers(st), fixed, now).value;
    FixedIsNotPlanned(st, config, now, plans);
    QueueIsClaimable(st, config, now, plans);
  }
}
