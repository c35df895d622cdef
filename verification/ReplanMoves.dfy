/** Once a placed window has begun, planning a second time at the same instant may move another job. */
module ReplanMoves {
  import opened Domain
  import opened Calendar
  import opened StoreSpec
  import opened StoreSteps
  import opened StoreInvariant
  import opened ReplanInvariant
  import opened StoreRuns
  import opened Scenario
  import opened Planner
  import opened PlannerAgreement
  import opened PlannerIdempotence
  import Policy
  import Scheduler
  import Sorting

  const SMALL: Id := 1
  const LARGE: Id := 2
  const EARLY_RANK: Id := 11
  const BEGUN: Id := 12
  const NOW: Time := 100

  function Setup(): Config {
    Config(BestFit, TIMEOUT, Policy.Facts(false, 0, 0), None, Everything)
  }

  function SmallHost(): Server {
    Ready(SMALL, [Card(31), Card(32)])
  }

  function LargeHost(): Server {
    Ready(LARGE, [Card(41), Card(42), Card(43)])
  }

  /** Ranked first, wants one GPU, starts later. */
  function Later(): Job {
    Submitted(EARLY_RANK, Necessity1, Needed(200), 1, 1)
  }

  /** Ranked second, wants two GPUs, its window has begun. */
  function Begun(): Job {
    Submitted(BEGUN, Necessity2, Needed(50), 1, 2)
  }

  function Hosts(): State {
    State(map[SMALL := SmallHost(), LARGE := LargeHost()], map[SMALL := SMALL, LARGE := LARGE], map[], map[], TIMEOUT)
  }

  function HostSteps(id: Id, gpus: seq<GPU>): seq<Step> {
    [UpsertStep(Registered(id)), InventoryStep(id, FullReport(gpus))]
  }

  function Arrivals(): seq<Step> {
    HostSteps(SMALL, SmallHost().gpus) + HostSteps(LARGE, LargeHost().gpus) + [CreateStep(Later())]
      + [CreateStep(Begun())]
  }

  function Submissions(): State {
    Hosts().(jobs := map[EARLY_RANK := Later(), BEGUN := Begun()])
  }

  lemma HostsArrive()
    ensures LegalRun(Initial(TIMEOUT), HostSteps(SMALL, SmallHost().gpus) + HostSteps(LARGE, LargeHost().gpus))
    ensures Run(Initial(TIMEOUT), HostSteps(SMALL, SmallHost().gpus) + HostSteps(LARGE, LargeHost().gpus)) == Hosts()
  {
    hide Run, LegalRun;
    var init, first := Initial(TIMEOUT), HostSteps(SMALL, SmallHost().gpus);
    EmptyRun(init);
    HostArrives(init, [], SMALL, SmallHost().gpus);
    assert [] + [first[0]] + [first[1]] == first;
    HostArrives(init, first, LARGE, LargeHost().gpus);
    var second := HostSteps(LARGE, LargeHost().gpus);
    assert first + [second[0]] + [second[1]] == first + second;
  }

  lemma Arrive()
    ensures LegalRun(Initial(TIMEOUT), Arrivals()) && Run(Initial(TIMEOUT), Arrivals()) == Submissions()
  {
    hide Run, LegalRun;
    HostsArrive();
    var hosts := HostSteps(SMALL, SmallHost().gpus) + HostSteps(LARGE, LargeHost().gpus);
    JobArrives(Initial(TIMEOUT), hosts, Later());
    JobArrives(Initial(TIMEOUT), hosts + [CreateStep(Later())], Begun());
  }

  // ---------------------------------------------------------------- The snapshots

  /** Two jobs in the repository make a snapshot of two, by identifier. */
  lemma TwoJobs(st: State, a: Job, b: Job)
    requires a.id < b.id && st.jobs == map[a.id := a, b.id := b] && JobsOk(st.jobs)
    ensures SnapshotJobs(st) == [a, b]
  {
    hide JobOk, SnapshotJobs;
    SnapshotJobsOk(st);
    SnapshotIsSorted(st);
    assert Sorting.Sorted(JobIdBefore, [a, b]) && Sorting.StrictTotalOn(JobIdBefore, [a, b]);
    Sorting.SortedIsUnique(JobIdBefore, [a, b], SnapshotJobs(st));
  }

  lemma BothHosts(st: State)
    requires st.servers == Hosts().servers
    ensures forall s :: s in SnapshotServers(st) <==> s == SmallHost() || s == LargeHost()
  {
    SnapshotHasEverything(st);
    assert st.servers[SMALL] == SmallHost() && st.servers[LARGE] == LargeHost();
  }

  // ---------------------------------------------------------------- Best fit between two hosts

  function Count(job: Job, host: Server, bookings: seq<Job>): nat {
    |Scheduler.Matching(job.resources, ProjectServer(job, host, bookings, NOW).gpus)|
  }

  /** The host with enough matching GPUs, and fewer of them than the other if that one has enough too, is taken. */
  lemma BestFitTakes(job: Job, servers: seq<Server>, bookings: seq<Job>, win: Server, lose: Server)
    requires HostsOk(servers) && win != lose && forall s :: s in servers <==> s == win || s == lose
    requires Eligible(job, win, NOW, TIMEOUT) && Eligible(job, lose, NOW, TIMEOUT)
    requires job.RequestedWindow().Valid() && NOW < job.RequestedWindow().end && job.resources.gpuCount > 0
    requires Count(job, win, bookings) >= job.resources.gpuCount
    requires Count(job, lose, bookings) < job.resources.gpuCount
      || Count(job, win, bookings) < Count(job, lose, bookings)
    ensures var host := ProjectServer(job, win, bookings, NOW);
      && Scheduler.Fits(job, host, NOW, TIMEOUT)
      && var p := Scheduler.PlacementOf(BestFit, Scheduler.CandidateOf(BestFit, job, host, NOW, TIMEOUT));
         EntryFor(Setup(), job, servers, bookings, NOW)
         == Ok(PlanEntry(job.id, Some(p.(policy := job.policy)), job.policy, HeldForWindow))
  {
    hide ProjectServer, ProjectAll, HostsOk, Scheduler.Matching, Scheduler.Plan, Scheduler.DistinctServers;
    var cs := CalendarServers(job, servers, bookings, NOW, TIMEOUT);
    CalendarOffers(job, servers, bookings, NOW, TIMEOUT);
    OfferedDiffer(job, cs);
    ProjectAllMembers(job, servers, bookings, NOW, TIMEOUT);
    ProjectServerKeepsIdentity(job, win, bookings, NOW);
    ProjectServerKeepsIdentity(job, lose, bookings, NOW);
    ProjectionIsEligible(job, win, bookings);
    ProjectionIsEligible(job, lose, bookings);
    Scheduler.PlanIsOptimal(BestFit, job, cs, NOW, TIMEOUT);
    var host := ProjectServer(job, win, bookings, NOW);
    assert host in cs && Scheduler.Fits(job, host, NOW, TIMEOUT);
  }

  lemma OfferedDiffer(job: Job, cs: seq<Server>)
    requires Offered(job, cs, NOW, TIMEOUT)
    ensures Scheduler.DistinctServers(cs)
  {
  }

  lemma ProjectionIsEligible(job: Job, host: Server, bookings: seq<Job>)
    requires Eligible(job, host, NOW, TIMEOUT)
    ensures Eligible(job, ProjectServer(job, host, bookings, NOW), NOW, TIMEOUT)
  {
  }

  // ---------------------------------------------------------------- Counting open GPUs

  predicate Taken(job: Job, host: Id, uuid: Id, bookings: seq<Job>) {
    exists b :: b in bookings && Conflicts(b, job, host, uuid)
  }

  /** A free card matches exactly when no booking takes it away. */
  lemma CardMatches(job: Job, host: Id, uuid: Id, bookings: seq<Job>)
    requires uuid != NO_ID && job.resources == Later().resources.(gpuCount := job.resources.gpuCount)
    ensures job.resources.Matches(ProjectGPU(job, host, Card(uuid), bookings, NOW))
      <==> !Taken(job, host, uuid, bookings)
  {
    OpenExactly(job, host, Card(uuid), bookings, NOW);
  }

  function One(taken: bool): nat {
    if taken then 0 else 1
  }

  lemma CountSmall(job: Job, bookings: seq<Job>)
    requires job.resources == Later().resources.(gpuCount := job.resources.gpuCount)
    ensures Count(job, SmallHost(), bookings)
      == One(Taken(job, SMALL, 31, bookings)) + One(Taken(job, SMALL, 32, bookings))
  {
    hide ProjectGPU, Taken, Resources.Matches;
    CardMatches(job, SMALL, 31, bookings);
    CardMatches(job, SMALL, 32, bookings);
    var a, b := ProjectGPU(job, SMALL, Card(31), bookings, NOW), ProjectGPU(job, SMALL, Card(32), bookings, NOW);
    var gpus := ProjectServer(job, SmallHost(), bookings, NOW).gpus;
    assert gpus == [a, b];
    assert [a, b][1..] == [b] && [b][1..] == [];
    var keep := (g: GPU) => job.resources.Matches(g);
    Sorting.SortPermutes(Scheduler.GPUBefore, Scheduler.Usable(job.resources, gpus));
    assert |Sorting.Filter(keep, [b])| == One(!keep(b));
  }

  lemma CountLarge(job: Job, bookings: seq<Job>)
    requires job.resources == Later().resources.(gpuCount := job.resources.gpuCount)
    ensures Count(job, LargeHost(), bookings)
         == One(Taken(job, LARGE, 41, bookings)) + One(Taken(job, LARGE, 42, bookings))
           + One(Taken(job, LARGE, 43, bookings))
  {
    hide ProjectGPU, Taken, Resources.Matches;
    CardMatches(job, LARGE, 41, bookings);
    CardMatches(job, LARGE, 42, bookings);
    CardMatches(job, LARGE, 43, bookings);
    var a, b := ProjectGPU(job, LARGE, Card(41), bookings, NOW), ProjectGPU(job, LARGE, Card(42), bookings, NOW);
    var c := ProjectGPU(job, LARGE, Card(43), bookings, NOW);
    var gpus := ProjectServer(job, LargeHost(), bookings, NOW).gpus;
    assert gpus == [a, b, c];
    assert [a, b, c][1..] == [b, c] && [b, c][1..] == [c] && [c][1..] == [];
    var keep := (g: GPU) => job.resources.Matches(g);
    Sorting.SortPermutes(Scheduler.GPUBefore, Scheduler.Usable(job.resources, gpus));
    assert |Sorting.Filter(keep, [c])| == One(!keep(c));
    assert |Sorting.Filter(keep, [b, c])| == One(!keep(b)) + One(!keep(c));
  }

  // ---------------------------------------------------------------- The first plan

  function Ranked(job: Job): Job {
    Policy.Evaluated(job, Setup().facts, NOW)
  }

  lemma TwoInQueue(a: Job, b: Job)
    requires a.id != b.id && NecessityOrder(a, b) && Candidate(Setup(), NOW, a) && Candidate(Setup(), NOW, b)
    ensures Queue(Setup(), [a, b], NOW) == [Ranked(a), Ranked(b)] && Fixed(Setup(), [a, b], NOW) == []
  {
    hide Candidate;
    assert [a, b][1..] == [b] && [b][1..] == [];
    var keep := (j: Job) => Candidate(Setup(), NOW, j);
    Sorting.FilterAll(keep, [a, b]);
    Sorting.FilterNone((j: Job) => !Candidate(Setup(), NOW, j), [a, b]);
    assert Policy.EvaluateAll([a, b], Setup().facts, NOW) == [Ranked(a), Ranked(b)];
    assert [Ranked(a), Ranked(b)][1..] == [Ranked(b)] && [Ranked(b)][1..] == [];
    assert Sorting.Sort(Policy.Before, [Ranked(b)]) == [Ranked(b)];
  }

  predicate NecessityOrder(a: Job, b: Job) {
    Policy.NecessityRank(a.necessity) < Policy.NecessityRank(b.necessity)
  }

  /** An entry that gives its job this many different GPUs of this host. */
  ghost predicate Places(e: PlanEntry, job: Id, host: Server, n: nat) {
    e.jobId == job && e.placement.Some? && e.placement.value.serverId == host.id
    && |e.placement.value.gpus| == n && DistinctIds(e.placement.value.gpus)
    && forall u :: u in e.placement.value.gpus ==> exists g :: g in host.gpus && g.uuid == u
  }

  lemma TakesFromHost(job: Job, servers: seq<Server>, bookings: seq<Job>, win: Server, lose: Server)
    requires HostsOk(servers) && win != lose && forall s :: s in servers <==> s == win || s == lose
    requires Eligible(job, win, NOW, TIMEOUT) && Eligible(job, lose, NOW, TIMEOUT)
    requires job.RequestedWindow().Valid() && NOW < job.RequestedWindow().end && job.resources.gpuCount > 0
    requires Count(job, win, bookings) >= job.resources.gpuCount
    requires Count(job, lose, bookings) < job.resources.gpuCount
      || Count(job, win, bookings) < Count(job, lose, bookings)
    ensures var r := EntryFor(Setup(), job, servers, bookings, NOW);
      r.Ok? && Places(r.value, job.id, win, job.resources.gpuCount)
  {
    hide HostsOk, Eligible, Count, EntryFor, ProjectGPU, Scheduler.Matching, Scheduler.Fits, Resources.Matches;
    BestFitTakes(job, servers, bookings, win, lose);
    HostIsOk(servers, win);
    ProjectedGPUs(job, win, bookings, NOW);
    var host := ProjectServer(job, win, bookings, NOW);
    ProjectServerKeepsIdentity(job, win, bookings, NOW);
    Scheduler.TakesLeastGPUs(BestFit, job, host, NOW, TIMEOUT);
    forall g | g in host.gpus ensures exists h :: h in win.gpus && h.uuid == g.uuid {
      var i :| 0 <= i < |host.gpus| && host.gpus[i] == g;
      SameCard(job, win, bookings, i);
      assert win.gpus[i] in win.gpus;
    }
  }

  lemma HostIsOk(servers: seq<Server>, host: Server)
    requires HostsOk(servers) && host in servers
    ensures ServerOk(host)
  {
  }

  lemma SameCard(job: Job, host: Server, bookings: seq<Job>, i: nat)
    requires ServerOk(host) && i < |host.gpus|
    ensures ProjectServer(job, host, bookings, NOW).gpus[i].uuid == host.gpus[i].uuid
  {
    assert host.gpus[i] in host.gpus;
    OpenExactly(job, host.id, host.gpus[i], bookings, NOW);
  }

  lemma FirstEntries(servers: seq<Server>)
    requires HostsOk(servers) && forall s :: s in servers <==> s == SmallHost() || s == LargeHost()
    ensures var r := PlanQueue(Setup(), [Ranked(Later()), Ranked(Begun())], servers, [], NOW);
      r.Ok? && |r.value| == 2 && Places(r.value[0], EARLY_RANK, SmallHost(), 1)
        && Places(r.value[1], BEGUN, LargeHost(), 2)
  {
    hide HostsOk, EntryFor, Count, Policy.Decide;
    var a, b := Ranked(Later()), Ranked(Begun());
    assert [a, b][1..] == [b] && [b][1..] == [];
    CountSmall(a, []);
    CountLarge(a, []);
    TakesFromHost(a, servers, [], SmallHost(), LargeHost());
    var first := EntryFor(Setup(), a, servers, [], NOW).value;
    var held := WithHeld([], a, first);
    SmallIsTaken(a, b, first);
    CountSmall(b, held);
    CountLarge(b, held);
    TakesFromHost(b, servers, held, LargeHost(), SmallHost());
    var second := EntryFor(Setup(), b, servers, held, NOW).value;
    assert PlanQueue(Setup(), [b], servers, held, NOW) == Ok([second] + []);
    assert PlanQueue(Setup(), [a, b], servers, [], NOW) == Ok([first] + ([second] + []));
  }

  lemma SmallIsTaken(a: Job, b: Job, first: PlanEntry)
    requires a == Ranked(Later()) && b == Ranked(Begun()) && Places(first, EARLY_RANK, SmallHost(), 1)
    ensures var held := WithHeld([], a, first);
      && (Taken(b, SMALL, 31, held) || Taken(b, SMALL, 32, held))
      && !Taken(b, LARGE, 41, held) && !Taken(b, LARGE, 42, held) && !Taken(b, LARGE, 43, held)
  {
    hide Policy.Decide;
    var held, u := WithHeld([], a, first), first.placement.value.gpus[0];
    assert held == [Held(a, first.placement.value)];
    assert held[0] in held && Conflicts(held[0], b, SMALL, u);
  }

  // ---------------------------------------------------------------- The second plan

  lemma SecondEntry(servers: seq<Server>, later: Job, begun: Job, e: PlanEntry)
    requires HostsOk(servers) && forall s :: s in servers <==> s == SmallHost() || s == LargeHost()
    requires Places(e, BEGUN, LargeHost(), 2) && begun == PlacedJob(Begun(), e, NOW)
    requires SameRequest(later, Later())
    ensures var r := EntryFor(Setup(), Ranked(later), servers, [begun], NOW);
      r.Ok? && Places(r.value, EARLY_RANK, LargeHost(), 1)
  {
    hide HostsOk, EntryFor, Count, Policy.Decide, PlacedJob, Places;
    var a := Ranked(later);
    TwoOfThreeTaken(a, begun, e);
    CountSmall(a, [begun]);
    CountLarge(a, [begun]);
    TakesFromHost(a, servers, [begun], LargeHost(), SmallHost());
  }

  lemma TwoOfThreeTaken(a: Job, begun: Job, e: PlanEntry)
    requires Places(e, BEGUN, LargeHost(), 2) && begun == PlacedJob(Begun(), e, NOW)
    requires SameRequest(a, Later())
    ensures !Taken(a, SMALL, 31, [begun]) && !Taken(a, SMALL, 32, [begun])
    ensures One(Taken(a, LARGE, 41, [begun])) + One(Taken(a, LARGE, 42, [begun])) + One(Taken(a, LARGE, 43, [begun]))
      == 1
  {
    var gpus := e.placement.value.gpus;
    assert begun in [begun];
    assert begun.assignment.value.gpus == gpus && begun.assignment.value.serverId == LARGE && !begun.status.Terminal();
    forall u ensures Taken(a, LARGE, u, [begun]) <==> u in gpus {
      assert Conflicts(begun, a, LARGE, u) <==> u in gpus;
    }
    assert gpus == [gpus[0], gpus[1]];
    assert gpus[0] in gpus && gpus[1] in gpus;
  }

  lemma FirstPlan(st: State) returns (plans: seq<PlanEntry>)
    requires st == Submissions() && Valid(st)
    ensures PlanReservations(Setup(), SnapshotJobs(st), SnapshotServers(st), NOW) == Ok(plans)
    ensures |plans| == 2 && Places(plans[0], EARLY_RANK, SmallHost(), 1) && Places(plans[1], BEGUN, LargeHost(), 2)
    ensures Replan(st, NOW, plans).Ok?
  {
    hide Valid, SnapshotJobs, SnapshotServers, HostsOk, PlanQueue, Queue, Fixed, Replan, Places, JobsOk, ServersOk;
    ValidSnapshot(st);
    TwoJobs(st, Later(), Begun());
    TwoInQueue(Later(), Begun());
    BothHosts(st);
    SnapshotHostsOk(st);
    FirstEntries(SnapshotServers(st));
    PlanIsAccepted(st, Setup(), NOW);
    plans := PlanReservations(Setup(), SnapshotJobs(st), SnapshotServers(st), NOW).value;
  }

  /** The job whose window has begun is no longer replannable; the other one is. */
  lemma OneInQueue(a: Job, b: Job)
    requires Candidate(Setup(), NOW, a) && !Candidate(Setup(), NOW, b)
    ensures Queue(Setup(), [a, b], NOW) == [Ranked(a)] && Fixed(Setup(), [a, b], NOW) == [b]
  {
    hide Candidate;
    var keep, rest := (j: Job) => Candidate(Setup(), NOW, j), (j: Job) => !Candidate(Setup(), NOW, j);
    assert [a] + [b] == [a, b];
    Sorting.FilterAppend(keep, [a], [b]);
    Sorting.FilterAppend(rest, [a], [b]);
    Sorting.FilterAll(keep, [a]);
    Sorting.FilterNone(keep, [b]);
    Sorting.FilterAll(rest, [b]);
    Sorting.FilterNone(rest, [a]);
    assert Policy.EvaluateAll([a], Setup().facts, NOW) == [Ranked(a)];
    assert [Ranked(a)][1..] == [];
    assert Sorting.Sort(Policy.Before, [Ranked(a)]) == [Ranked(a)];
  }

  lemma PlacedCandidates(first: PlanEntry, second: PlanEntry)
    requires first.placement.Some? && second.placement.Some?
    ensures Candidate(Setup(), NOW, PlacedJob(Later(), first, NOW))
      && !Candidate(Setup(), NOW, PlacedJob(Begun(), second, NOW))
  {
  }

  lemma AfterFirst(st: State, plans: seq<PlanEntry>)
    requires st == Submissions() && Replan(st, NOW, plans).Ok? && |plans| == 2
    requires Places(plans[0], EARLY_RANK, SmallHost(), 1) && Places(plans[1], BEGUN, LargeHost(), 2)
    ensures var next := Replanned(st, NOW, plans);
      next == st.(jobs := map[EARLY_RANK := PlacedJob(Later(), plans[0], NOW),
                              BEGUN := PlacedJob(Begun(), plans[1], NOW)])
  {
    hide Replan, Replanned, PlacedJob, Claimable;
    ReplanWrites(st, NOW, plans);
    ReplannedJobs(st, NOW, plans);
    assert plans[0] in plans && plans[1] in plans;
    var next := Replanned(st, NOW, plans);
    assert next.jobs.Keys == {EARLY_RANK, BEGUN};
    assert next.jobs == map[EARLY_RANK := PlacedJob(Later(), plans[0], NOW),
                            BEGUN := PlacedJob(Begun(), plans[1], NOW)];
  }

  lemma SecondPlan(st: State, plans: seq<PlanEntry>) returns (again: seq<PlanEntry>)
    requires st == Submissions() && Valid(st) && Replan(st, NOW, plans).Ok? && |plans| == 2
    requires Places(plans[0], EARLY_RANK, SmallHost(), 1) && Places(plans[1], BEGUN, LargeHost(), 2)
    ensures var next := Replanned(st, NOW, plans);
      && PlanReservations(Setup(), SnapshotJobs(next), SnapshotServers(next), NOW) == Ok(again)
      && |again| == 1 && Places(again[0], EARLY_RANK, LargeHost(), 1) && Replan(next, NOW, again).Ok?
  {
    hide Valid, SnapshotJobs, SnapshotServers, HostsOk, PlanQueue, Queue, Fixed, Replan, Places, JobsOk, ServersOk,
         Replanned, Candidate, EntryFor, PlacedJob;
    ReplannedIsValid(st, NOW, plans);
    AfterFirst(st, plans);
    var next := Replanned(st, NOW, plans);
    var later, begun := PlacedJob(Later(), plans[0], NOW), PlacedJob(Begun(), plans[1], NOW);
    PlacedKeepsRequest(plans[0], plans[1]);
    PlacesSomewhere(plans[0], EARLY_RANK, SmallHost(), 1);
    PlacesSomewhere(plans[1], BEGUN, LargeHost(), 2);
    PlacedCandidates(plans[0], plans[1]);
    ValidSnapshot(next);
    TwoJobs(next, later, begun);
    OneInQueue(later, begun);
    BothHosts(next);
    SnapshotHostsOk(next);
    SecondEntry(SnapshotServers(next), later, begun, plans[1]);
    PlanIsAccepted(next, Setup(), NOW);
    again := [EntryFor(Setup(), Ranked(later), SnapshotServers(next), [begun], NOW).value];
    PlanOfOne(Ranked(later), SnapshotServers(next), [begun]);
  }

  lemma PlacesSomewhere(e: PlanEntry, job: Id, host: Server, n: nat)
    requires Places(e, job, host, n)
    ensures e.placement.Some?
  {
  }

  lemma PlacedKeepsRequest(first: PlanEntry, second: PlanEntry)
    ensures SameRequest(PlacedJob(Later(), first, NOW), Later())
    ensures PlacedJob(Later(), first, NOW).id == EARLY_RANK && PlacedJob(Begun(), second, NOW).id == BEGUN
  {
  }

  lemma PlanOfOne(job: Job, servers: seq<Server>, bookings: seq<Job>)
    requires EntryFor(Setup(), job, servers, bookings, NOW).Ok?
    ensures PlanQueue(Setup(), [job], servers, bookings, NOW)
      == Ok([EntryFor(Setup(), job, servers, bookings, NOW).value])
  {
    hide EntryFor;
    assert [job][1..] == [];
    var entry := EntryFor(Setup(), job, servers, bookings, NOW).value;
    assert PlanQueue(Setup(), [job], servers, bookings, NOW) == Ok([entry] + []);
    assert [entry] + [] == [entry];
  }

  /** In a reachable state, two planner runs at one instant: the first books the later job on the small host; by the
      second the other job's begun window is fixed on the large host, which is now the better fit, and the later job
      moves there. */
  lemma BegunWindowMovesAnother() returns (plans: seq<PlanEntry>, again: seq<PlanEntry>)
    ensures LegalRun(Initial(TIMEOUT), Arrivals())
    ensures var st := Run(Initial(TIMEOUT), Arrivals());
      && PlanReservations(Setup(), SnapshotJobs(st), SnapshotServers(st), NOW) == Ok(plans)
      && Replan(st, NOW, plans).Ok?
      && var next := Replanned(st, NOW, plans);
         && PlanReservations(Setup(), SnapshotJobs(next), SnapshotServers(next), NOW) == Ok(again)
         && Replan(next, NOW, again).Ok?
         && Replan(next, NOW, again).value.count == 1
         && EARLY_RANK in next.jobs && PlannedAt(next.jobs[EARLY_RANK], SMALL)
         && var last := Replanned(next, NOW, again);
            EARLY_RANK in last.jobs && PlannedAt(last.jobs[EARLY_RANK], LARGE)
  {
    hide Run, LegalRun, Valid, SnapshotJobs, SnapshotServers, Replan, Places, Replanned, PlanReservations, PlannedAt;
    Arrive();
    var st := Run(Initial(TIMEOUT), Arrivals());
    ReachableIsValid(TIMEOUT, Arrivals());
    plans := FirstPlan(st);
    AfterFirst(st, plans);
    again := SecondPlan(st, plans);
    var next := Replanned(st, NOW, plans);
    AfterSecond(next, again, PlacedJob(Later(), plans[0], NOW), plans[0]);
  }

  predicate PlannedAt(job: Job, host: Id) {
    PlannedJob(job) && job.assignment.value.serverId == host
  }

  lemma AfterSecond(next: State, again: seq<PlanEntry>, later: Job, first: PlanEntry)
    requires Places(first, EARLY_RANK, SmallHost(), 1) && later == PlacedJob(Later(), first, NOW)
    requires EARLY_RANK in next.jobs && next.jobs[EARLY_RANK] == later
    requires Replan(next, NOW, again).Ok? && |again| == 1 && Places(again[0], EARLY_RANK, LargeHost(), 1)
    ensures PlannedAt(later, SMALL) && Replan(next, NOW, again).value.count == 1
    ensures EARLY_RANK in Replanned(next, NOW, again).jobs
      && PlannedAt(Replanned(next, NOW, again).jobs[EARLY_RANK], LARGE)
  {
    hide Replan, Replanned;
    ReplanWrites(next, NOW, again);
    ReplannedJobs(next, NOW, again);
    ReplanCountsMoves(next, NOW, again);
    assert again[0] in again && again[1..] == [];
    assert Moved(next, again[0]);
    assert Sorting.Filter((e: PlanEntry) => Moved(next, e), again) == [again[0]];
  }
}
