/** Tenant isolation as a relation between two plans: what an organisation gets does not depend on anybody else's
  jobs or hosts. */
module PlannerTenancy {
  import opened Domain
  import opened Accounting
  import opened Calendar
  import opened StoreSpec
  import opened StoreSteps
  import opened Planner
  import opened PlannerAgreement
  import opened PlannerFairness
  import opened ReplanInvariant
  import Policy
  import Scheduler
  import Sorting

  function Of(org: Id): Job -> bool {
    (j: Job) => j.org == org
  }

  function HostsOf(org: Id): Server -> bool {
    (s: Server) => s.org == org
  }

  function EntriesOf(ids: set<Id>): PlanEntry -> bool {
    (e: PlanEntry) => e.jobId in ids
  }

  /** A live booking is on a host of the job's own organisation. */
  ghost predicate AtHome(job: Job, servers: seq<Server>) {
    !job.status.Terminal() && job.assignment.Some? ==>
      forall s :: s in servers && s.id == job.assignment.value.serverId ==> s.org == job.org
  }

  ghost predicate AllAtHome(bookings: seq<Job>, servers: seq<Server>) {
    forall b :: b in bookings ==> AtHome(b, servers)
  }

  // ---------------------------------------------------------------- One projection

  lemma {:induction false} BlockIgnores(job: Job, sid: Id, gpu: GPU, bookings: seq<Job>, keep: Job -> bool)
    requires forall b :: b in bookings && !keep(b) ==> !Conflicts(b, job, sid, gpu.uuid)
    ensures Block(job, sid, gpu, Sorting.Filter(keep, bookings)) == Block(job, sid, gpu, bookings)
    decreases |bookings|
  {
    hide Conflicts;
    if bookings != [] {
      assert bookings[0] in bookings && forall b :: b in bookings[1..] ==> b in bookings;
      BlockIgnores(job, sid, gpu, bookings[1..], keep);
      BlockIgnores(job, sid, gpu.(state := Reserved, assignedJob := bookings[0].id), bookings[1..], keep);
      if keep(bookings[0]) {
        assert Sorting.Filter(keep, bookings)[1..] == Sorting.Filter(keep, bookings[1..]);
      }
    }
  }

  lemma VacateIgnores(job: Job, sid: Id, gpu: GPU, bookings: seq<Job>, now: Time, keep: Job -> bool)
    requires forall b :: b in bookings && !keep(b) ==> !EndsBefore(b, sid, gpu, job.RequestedWindow())
    ensures Vacate(job, sid, gpu, Sorting.Filter(keep, bookings), now) == Vacate(job, sid, gpu, bookings, now)
  {
    hide EndsBefore;
    Sorting.FilterMembers(keep, bookings);
  }

  /** A booking on another host never touches this one. */
  lemma ElsewhereIsIgnored(b: Job, job: Job, sid: Id, gpu: GPU)
    requires !b.status.Terminal() && b.assignment.Some? ==> b.assignment.value.serverId != sid
    ensures forall uuid :: !Conflicts(b, job, sid, uuid)
    ensures !EndsBefore(b, sid, gpu, job.RequestedWindow())
  {
  }

  lemma ProjectIgnores(job: Job, s: Server, bookings: seq<Job>, now: Time, keep: Job -> bool)
    requires forall b :: b in bookings && !keep(b) && !b.status.Terminal() && b.assignment.Some? ==>
      b.assignment.value.serverId != s.id
    ensures ProjectServer(job, s, Sorting.Filter(keep, bookings), now) == ProjectServer(job, s, bookings, now)
  {
    hide Conflicts, EndsBefore, Vacate, Resources.CapabilityMatches, Block;
    var own := Sorting.Filter(keep, bookings);
    forall i | 0 <= i < |s.gpus|
      ensures ProjectGPU(job, s.id, s.gpus[i], own, now) == ProjectGPU(job, s.id, s.gpus[i], bookings, now)
    {
      var g := s.gpus[i];
      forall b | b in bookings && !keep(b)
        ensures !EndsBefore(b, s.id, g, job.RequestedWindow()) && forall uuid :: !Conflicts(b, job, s.id, uuid)
      {
        ElsewhereIsIgnored(b, job, s.id, g);
      }
      VacateIgnores(job, s.id, g, bookings, now, keep);
      BlockIgnores(job, s.id, Vacate(job, s.id, g, bookings, now), bookings, keep);
    }
    assert ProjectServer(job, s, own, now).gpus == ProjectServer(job, s, bookings, now).gpus;
  }

  lemma {:induction false} ProjectAllIgnores(job: Job, servers: seq<Server>, all: seq<Server>, bookings: seq<Job>,
                                             now: Time, off: int)
    requires AllAtHome(bookings, all) && forall s :: s in servers ==> s in all
    ensures ProjectAll(job, Sorting.Filter(HostsOf(job.org), servers), Sorting.Filter(Of(job.org), bookings), now, off)
         == ProjectAll(job, servers, bookings, now, off)
    decreases |servers|
  {
    hide ProjectServer, Server.Schedulable;
    if servers != [] {
      var s := servers[0];
      assert s in servers;
      ProjectAllIgnores(job, servers[1..], all, bookings, now, off);
      if s.org == job.org {
        forall b | b in bookings && b.org != job.org && !b.status.Terminal() && b.assignment.Some?
          ensures b.assignment.value.serverId != s.id
        {
          assert AtHome(b, all);
        }
        ProjectIgnores(job, s, bookings, now, Of(job.org));
        assert Sorting.Filter(HostsOf(job.org), servers)[1..] == Sorting.Filter(HostsOf(job.org), servers[1..]);
      }
    }
  }

  lemma EntryIgnores(config: Config, job: Job, servers: seq<Server>, bookings: seq<Job>, now: Time)
    requires AllAtHome(bookings, servers)
    ensures EntryFor(config, job, Sorting.Filter(HostsOf(job.org), servers), Sorting.Filter(Of(job.org), bookings), now)
         == EntryFor(config, job, servers, bookings, now)
  {
    hide Scheduler.Plan, ProjectAll, Disabled, AllAtHome;
    ProjectAllIgnores(job, servers, servers, bookings, now, config.offlineAfter);
  }

  // ---------------------------------------------------------------- The whole queue

  lemma HeldAtHome(config: Config, job: Job, servers: seq<Server>, bookings: seq<Job>, now: Time)
    requires HostsOk(servers) && AllAtHome(bookings, servers) && job.resources.gpuCount > 0
    requires EntryFor(config, job, servers, bookings, now).Ok?
    ensures AllAtHome(WithHeld(bookings, job, EntryFor(config, job, servers, bookings, now).value), servers)
  {
    hide Scheduler.Plan, Scheduler.Fits, CalendarServers, Server.Schedulable, EntryFor, ProjectServer, ServerOk;
    var entry := EntryFor(config, job, servers, bookings, now).value;
    if entry.placement.Some? {
      PlacedEntry(config, job, servers, bookings, now);
      var off := config.offlineAfter;
      var cs := CalendarServers(job, servers, bookings, now, off);
      CalendarOffers(job, servers, bookings, now, off);
      Scheduler.PlanIsOptimal(config.strategy, job, cs, now, off);
      var c :| c in cs && Scheduler.Fits(job, c, now, off)
        && Scheduler.Plan(config.strategy, job, cs, now, off).value
           == Scheduler.PlacementOf(config.strategy, Scheduler.CandidateOf(config.strategy, job, c, now, off));
      HostBehind(job, servers, bookings, now, off, c);
      assert AtHome(Held(job, entry.placement.value), servers);
    }
  }

  lemma HostBehind(job: Job, servers: seq<Server>, bookings: seq<Job>, now: Time, off: int, c: Server)
    requires HostsOk(servers) && c in CalendarServers(job, servers, bookings, now, off)
    ensures forall s :: s in servers && s.id == c.id ==> s.org == job.org
  {
    hide ProjectGPU, ServerOk, Server.Schedulable, ProjectAll;
    ProjectAllMembers(job, servers, bookings, now, off);
    var h :| h in servers && Eligible(job, h, now, off) && c == ProjectServer(job, h, bookings, now);
    forall s | s in servers && s.id == c.id ensures s == h {
      var a :| 0 <= a < |servers| && servers[a] == s;
      var b :| 0 <= b < |servers| && servers[b] == h;
    }
  }

  lemma HeldOfOrg(bookings: seq<Job>, job: Job, entry: PlanEntry, org: Id)
    ensures Sorting.Filter(Of(org), WithHeld(bookings, job, entry))
         == (if job.org == org then WithHeld(Sorting.Filter(Of(org), bookings), job, entry)
             else Sorting.Filter(Of(org), bookings))
  {
    if entry.placement.Some? {
      Sorting.FilterAppend(Of(org), bookings, [Held(job, entry.placement.value)]);
    }
  }

  lemma {:induction false} QueueIgnores(config: Config, queue: seq<Job>, servers: seq<Server>, bookings: seq<Job>,
                                        now: Time, org: Id, ids: set<Id>)
    requires HostsOk(servers) && AllAtHome(bookings, servers) && Sized(queue)
    requires forall j :: j in queue ==> (j.id in ids <==> j.org == org)
    ensures var whole := PlanQueue(config, queue, servers, bookings, now);
      var own := PlanQueue(config, Sorting.Filter(Of(org), queue), Sorting.Filter(HostsOf(org), servers),
                           Sorting.Filter(Of(org), bookings), now);
      whole.Ok? && own.Ok? && own.value == Sorting.Filter(EntriesOf(ids), whole.value)
    decreases |queue|
  {
    hide EntryFor, WithHeld, HostsOk, AllAtHome;
    if queue != [] {
      var job := queue[0];
      assert job in queue && forall j :: j in queue[1..] ==> j in queue;
      EntryAlwaysDecided(config, job, servers, bookings, now);
      var entry := EntryFor(config, job, servers, bookings, now).value;
      HeldAtHome(config, job, servers, bookings, now);
      HeldOfOrg(bookings, job, entry, org);
      QueueIgnores(config, queue[1..], servers, WithHeld(bookings, job, entry), now, org, ids);
      if job.org == org {
        EntryIgnores(config, job, servers, bookings, now);
        assert Sorting.Filter(Of(org), queue)[1..] == Sorting.Filter(Of(org), queue[1..]);
      }
      var rest := PlanQueue(config, queue[1..], servers, WithHeld(bookings, job, entry), now).value;
      assert ([entry] + rest)[1..] == rest;
    }
  }

  lemma SelectionCommutes(config: Config, jobs: seq<Job>, now: Time, org: Id)
    requires Policy.DistinctJobs(jobs)
    ensures Queue(config, Sorting.Filter(Of(org), jobs), now) == Sorting.Filter(Of(org), Queue(config, jobs, now))
    ensures Fixed(config, Sorting.Filter(Of(org), jobs), now) == Sorting.Filter(Of(org), Fixed(config, jobs, now))
  {
    hide Candidate, Policy.Ordered, Policy.Before;
    Sorting.FilterTwice((j: Job) => Candidate(config, now, j), Of(org), jobs);
    Sorting.FilterTwice((j: Job) => !Candidate(config, now, j), Of(org), jobs);
    CandidatesDistinct(config, jobs, now);
    Policy.OrderedFilter(Of(org), Candidates(config, jobs, now), config.facts, now);
  }

  function IdsOf(jobs: seq<Job>, org: Id): set<Id> {
    set j | j in jobs && j.org == org :: j.id
  }

  lemma QueueIds(config: Config, jobs: seq<Job>, now: Time, org: Id)
    requires Policy.DistinctJobs(jobs)
    ensures forall j :: j in Queue(config, jobs, now) ==> (j.id in IdsOf(jobs, org) <==> j.org == org)
  {
    hide Candidate, Policy.Ordered, Policy.Before, Policy.Decide;
    var candidates := Candidates(config, jobs, now);
    Sorting.FilterMembers((j: Job) => Candidate(config, now, j), jobs);
    CandidatesDistinct(config, jobs, now);
    Policy.OrderedIsSorted(candidates, config.facts, now);
    forall j | j in Queue(config, jobs, now) ensures j.id in IdsOf(jobs, org) <==> j.org == org {
      var c :| c in candidates && j == Policy.Evaluated(c, config.facts, now);
      IdNamesOneJob(jobs, c, org);
    }
  }

  lemma IdNamesOneJob(jobs: seq<Job>, c: Job, org: Id)
    requires Policy.DistinctJobs(jobs) && c in jobs
    ensures c.id in IdsOf(jobs, org) <==> c.org == org
  {
    if c.id in IdsOf(jobs, org) {
      var d :| d in jobs && d.org == org && d.id == c.id;
      var a :| 0 <= a < |jobs| && jobs[a] == c;
      var b :| 0 <= b < |jobs| && jobs[b] == d;
    }
  }

  /** The entries of one organisation's jobs are the same whether the planner sees all jobs and hosts or only that
      organisation's. */
  lemma TenantNonInterference(config: Config, jobs: seq<Job>, servers: seq<Server>, now: Time, org: Id)
    requires Policy.DistinctJobs(jobs) && Sized(jobs) && HostsOk(servers) && AllAtHome(jobs, servers)
    ensures var whole := PlanReservations(config, jobs, servers, now);
      var own := PlanReservations(config, Sorting.Filter(Of(org), jobs), Sorting.Filter(HostsOf(org), servers), now);
      whole.Ok? && own.Ok? && own.value == Sorting.Filter(EntriesOf(IdsOf(jobs, org)), whole.value)
  {
    hide Queue, Fixed, PlanQueue, HostsOk, AtHome, Candidate;
    SelectionCommutes(config, jobs, now, org);
    QueueIsSized(config, jobs, now);
    QueueIds(config, jobs, now, org);
    FixedAtHome(config, jobs, servers, now);
    QueueIgnores(config, Queue(config, jobs, now), servers, Fixed(config, jobs, now), now, org, IdsOf(jobs, org));
  }

  lemma FixedAtHome(config: Config, jobs: seq<Job>, servers: seq<Server>, now: Time)
    requires AllAtHome(jobs, servers)
    ensures AllAtHome(Fixed(config, jobs, now), servers)
  {
    hide Candidate, AtHome;
    Sorting.FilterMembers((j: Job) => !Candidate(config, now, j), jobs);
  }

  lemma TenantsAreAtHome(st: State)
    requires Valid(st)
    ensures AllAtHome(SnapshotJobs(st), SnapshotServers(st))
  {
    hide CommandsOk, Exclusive, CalendarExclusive, HeldIsNotFree, GPUsUnshared, SnapshotJobs, SnapshotServers, JobOk,
         ServerOk;
    SnapshotJobsOk(st);
    SnapshotHasEverything(st);
    forall j, s | j in SnapshotJobs(st) && s in SnapshotServers(st) && j.assignment.Some?
      && s.id == j.assignment.value.serverId
      ensures s.org == j.org
    {
      assert Tenant(st.servers, st.jobs[j.id]);
      var k := Sorting.KeyOf(st.servers, s);
    }
  }

  /** In every valid repository state, and so whatever a run did before: no organisation can observe another through
      the planner. */
  lemma TenantIsolation(st: State, config: Config, now: Time, org: Id)
    requires Valid(st)
    ensures var jobs, servers := SnapshotJobs(st), SnapshotServers(st);
      var whole := PlanReservations(config, jobs, servers, now);
      var own := PlanReservations(config, Sorting.Filter(Of(org), jobs), Sorting.Filter(HostsOf(org), servers), now);
      whole.Ok? && own.Ok? && own.value == Sorting.Filter(EntriesOf(IdsOf(jobs, org)), whole.value)
  {
    hide Valid, SnapshotJobs, SnapshotServers, PlanReservations, HostsOk, JobsOk, ServersOk, AllAtHome;
    ValidSnapshot(st);
    SnapshotHostsOk(st);
    SnapshotQueueIsSized(st, config, now);
    TenantsAreAtHome(st);
    TenantNonInterference(config, SnapshotJobs(st), SnapshotServers(st), now, org);
  }

  /** A member who may only see the organisation's own jobs gets the same plan for them as the background worker. */
  lemma ScopeChangesNothing(config: Config, jobs: seq<Job>, servers: seq<Server>, now: Time, org: Id)
    requires Policy.DistinctJobs(jobs) && Sized(jobs) && HostsOk(servers) && AllAtHome(jobs, servers) && org != NO_ID
    ensures var whole := PlanReservations(config.(scope := Everything), jobs, servers, now);
      var scoped := PlanReservations(config.(scope := Only(org)), jobs, servers, now);
      whole.Ok? && scoped.Ok? && Sorting.Filter(EntriesOf(IdsOf(jobs, org)), scoped.value)
                                == Sorting.Filter(EntriesOf(IdsOf(jobs, org)), whole.value)
  {
    hide HostsOk, AtHome, PlanQueue, Policy.Ordered;
    TenantNonInterference(config.(scope := Everything), jobs, servers, now, org);
    TenantNonInterference(config.(scope := Only(org)), jobs, servers, now, org);
    var own := Sorting.Filter(Of(org), jobs);
    Sorting.FilterMembers(Of(org), jobs);
    var a, b := config.(scope := Everything), config.(scope := Only(org));
    Sorting.FilterSame((j: Job) => Candidate(a, now, j), (j: Job) => Candidate(b, now, j), own);
    Sorting.FilterSame((j: Job) => !Candidate(a, now, j), (j: Job) => !Candidate(b, now, j), own);
    ScopedQueue(config, Queue(a, own, now), Sorting.Filter(HostsOf(org), servers), Fixed(a, own, now), now, org);
  }

  lemma {:induction false} ScopedQueue(config: Config, queue: seq<Job>, servers: seq<Server>, bookings: seq<Job>,
                                       now: Time, org: Id)
    ensures PlanQueue(config.(scope := Everything), queue, servers, bookings, now)
         == PlanQueue(config.(scope := Only(org)), queue, servers, bookings, now)
    decreases |queue|
  {
    hide WithHeld, Scheduler.Plan, CalendarServers;
    if queue != [] {
      var e := EntryFor(config.(scope := Everything), queue[0], servers, bookings, now);
      assert e == EntryFor(config.(scope := Only(org)), queue[0], servers, bookings, now);
      if e.Ok? {
        ScopedQueue(config, queue[1..], servers, WithHeld(bookings, queue[0], e.value), now, org);
      }
    }
  }
}
