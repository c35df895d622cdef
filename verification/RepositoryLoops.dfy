/** The loops and checks inside the repository's critical sections, each proved against its specification. */
module RepositoryLoops {
  import opened Domain
  import opened Accounting
  import opened Calendar
  import opened StoreSpec
  import opened StoreSteps
  import opened StoreInvariant
  import opened ReplanInvariant
  import opened StoreRuns
  import Sorting

  /** The call did what the step does: on success the state is the step's, on failure nothing changed. */
  ghost predicate Performs(before: State, step: Step, after: State, error: Option<Error>) {
    match Outcome(before, step)
    case Ok(next) => after == next && error.None?
    case Err(e) => after == before && error == Some(e)
  }

  function ErrorOf<T>(r: Result<T>): Option<Error> {
    match r case Ok(_) => None case Err(e) => Some(e)
  }

  // ---------------------------------------------------------------- Counting the wanted GPUs

  function IdSet(ids: seq<Id>): set<Id> {
    set id | id in ids
  }

  lemma {:induction false} DistinctIdsCount(ids: seq<Id>)
    requires DistinctIds(ids)
    ensures |IdSet(ids)| == |ids|
  {
    if ids != [] {
      DistinctIdsCount(ids[1..]);
      assert IdSet(ids) == {ids[0]} + IdSet(ids[1..]);
      assert ids[0] !in ids[1..];
    }
  }

  lemma SubsetOfSameSize(a: set<Id>, b: set<Id>)
    requires a <= b
    ensures |a| == |b| <==> a == b
  {
    if a != b {
      assert |b - a| == |b| - |a|;
      assert b - a != {};
    }
  }

  function Present(gpus: seq<GPU>, wanted: set<Id>): set<Id> {
    set g | g in gpus && g.uuid in wanted :: g.uuid
  }

  lemma PresentGrows(gpus: seq<GPU>, i: nat, wanted: set<Id>)
    requires DistinctUUIDs(gpus) && i < |gpus|
    ensures gpus[..i + 1] == gpus[..i] + [gpus[i]]
    ensures gpus[i].uuid !in Present(gpus[..i], wanted)
    ensures Present(gpus[..i + 1], wanted)
         == Present(gpus[..i], wanted) + (if gpus[i].uuid in wanted then {gpus[i].uuid} else {})
  {
    assert gpus[..i + 1] == gpus[..i] + [gpus[i]];
  }

  lemma NothingPresent(gpus: seq<GPU>, wanted: set<Id>)
    ensures gpus[..0] == [] && |Present(gpus[..0], wanted)| == 0
  {
    assert Present(gpus[..0], wanted) == {};
  }

  lemma AllPresent(gpus: seq<GPU>, ids: seq<Id>)
    ensures |Present(gpus, IdSet(ids))| == |IdSet(ids)|
      <==> forall u :: u in ids ==> exists g :: g in gpus && g.uuid == u
  {
    var present, wanted := Present(gpus, IdSet(ids)), IdSet(ids);
    SubsetOfSameSize(present, wanted);
    if present == wanted {
      forall u | u in ids ensures exists g :: g in gpus && g.uuid == u {
        assert u in present;
      }
    }
    if forall u :: u in ids ==> exists g :: g in gpus && g.uuid == u {
      assert present == wanted;
    }
  }

  /** Wanted identifiers are non-empty and different; every one names a present, matching GPU. */
  method MatchesAll(job: Job, gpus: seq<GPU>, uuids: seq<Id>) returns (ok: bool)
    requires DistinctUUIDs(gpus)
    ensures ok <==> NO_ID !in uuids && DistinctIds(uuids) && AllMatch(job, gpus, uuids)
  {
    hide Present, DistinctUUIDs, Resources.Matches;
    var wanted: set<Id> := {};
    for i := 0 to |uuids|
      invariant wanted == IdSet(uuids[..i]) && NO_ID !in uuids[..i] && DistinctIds(uuids[..i])
    {
      assert uuids[..i + 1] == uuids[..i] + [uuids[i]];
      if uuids[i] == NO_ID || uuids[i] in wanted {
        assert uuids[i] in uuids;
        if uuids[i] in uuids[..i] {
          ghost var k :| 0 <= k < i && uuids[..i][k] == uuids[i];
          assert uuids[k] == uuids[i];
        }
        return false;
      }
      wanted := wanted + {uuids[i]};
    }
    assert uuids[..|uuids|] == uuids;
    var found := 0;
    NothingPresent(gpus, wanted);
    for i := 0 to |gpus|
      invariant found == |Present(gpus[..i], wanted)|
      invariant forall g :: g in gpus[..i] && g.uuid in wanted ==> job.resources.Matches(g)
    {
      PresentGrows(gpus, i, wanted);
      if gpus[i].uuid in wanted {
        if !job.resources.Matches(gpus[i]) {
          assert gpus[i] in gpus;
          return false;
        }
        found := found + 1;
      }
    }
    assert gpus[..|gpus|] == gpus;
    AllPresent(gpus, uuids);
    ok := found == |wanted|;
  }

  method SelectorMatches(job: Job, server: Server) returns (ok: bool)
    ensures ok <==> SelectorHolds(job, server)
  {
    var todo := job.selector.Keys;
    while todo != {}
      invariant todo <= job.selector.Keys
      invariant forall k :: k in job.selector && k !in todo ==>
        job.selector[k] == (if k in server.labels then server.labels[k] else NO_ID)
      decreases todo
    {
      var key := Pick(todo);
      todo := todo - {key};
      if (if key in server.labels then server.labels[key] else NO_ID) != job.selector[key] {
        return false;
      }
    }
    ok := true;
  }

  method PlacementFits(job: Job, server: Server, p: Placement) returns (ok: bool)
    requires DistinctUUIDs(server.gpus)
    ensures ok <==> PlacementMatches(job, server, p)
  {
    if !SameOrganization(job.org, server.org) || job.resources.gpuCount <= 0 || |p.gpus| != job.resources.gpuCount {
      return false;
    }
    ok := MatchesAll(job, server.gpus, p.gpus);
    if ok {
      ok := SelectorMatches(job, server);
    }
  }

  // ---------------------------------------------------------------- Map iteration

  /** The values of a map, one per key, in the unspecified order of map iteration. */
  method Values<T>(m: map<Id, T>) returns (xs: seq<T>, ghost keys: seq<Id>)
    ensures |keys| == |xs| && DistinctIds(keys)
    ensures forall i :: 0 <= i < |xs| ==> keys[i] in m && xs[i] == m[keys[i]]
    ensures forall k :: k in m ==> k in keys
  {
    xs, keys := [], [];
    var todo := m.Keys;
    while todo != {}
      invariant todo <= m.Keys && |keys| == |xs| && DistinctIds(keys)
      invariant forall i :: 0 <= i < |xs| ==> keys[i] in m && keys[i] !in todo && xs[i] == m[keys[i]]
      invariant forall k :: k in m && k !in todo ==> k in keys
      decreases todo
    {
      var k := Pick(todo);
      todo := todo - {k};
      xs, keys := xs + [m[k]], keys + [k];
    }
  }

  lemma ValuesAreDistinct<T(!new)>(m: map<Id, T>, xs: seq<T>, keys: seq<Id>, idOf: T -> Id)
    requires forall k :: k in m ==> idOf(m[k]) == k
    requires |keys| == |xs| && DistinctIds(keys)
    requires forall i :: 0 <= i < |xs| ==> keys[i] in m && xs[i] == m[keys[i]]
    requires forall k :: k in m ==> k in keys
    ensures Sorting.Distinct(xs) && forall x :: x in xs <==> x in m.Values
  {
    forall x | x in m.Values ensures x in xs {
      var k := Sorting.KeyOf(m, x);
      var i :| 0 <= i < |keys| && keys[i] == k;
      assert xs[i] == x;
    }
    forall i, j | 0 <= i < j < |xs| ensures xs[i] != xs[j] {
      assert idOf(xs[i]) == keys[i] && idOf(xs[j]) == keys[j];
    }
  }

  lemma SortedSnapshot<T(!new)>(m: map<Id, T>, xs: seq<T>, idOf: T -> Id, less: (T, T) -> bool)
    requires forall k :: k in m ==> idOf(m[k]) == k
    requires forall a, b :: less(a, b) <==> idOf(a) < idOf(b)
    requires Sorting.Distinct(xs) && forall x :: x in xs <==> x in m.Values
    ensures Sorting.Sort(less, xs) == Sorting.Sort(less, Sorting.Elements(m.Values))
    ensures Sorting.Sorted(less, Sorting.Sort(less, xs))
  {
    forall x, y | x in xs && y in xs && x != y ensures less(x, y) || less(y, x) {
      var k := Sorting.KeyOf(m, x);
      var l := Sorting.KeyOf(m, y);
    }
    Sorting.SortIsCanonical(less, xs, Sorting.Elements(m.Values));
    Sorting.SortSorts(less, xs);
  }

  // ---------------------------------------------------------------- Inventory look-ups

  /** The managed container that stands for each job of a report. */
  method ManagedByJob(cs: seq<Container>) returns (byJob: map<Id, Container>)
    ensures forall j :: j != NO_ID ==> (j in byJob <==> Observed(cs, j).Some?)
    ensures forall j :: j != NO_ID && j in byJob ==> byJob[j] == Observed(cs, j).value
  {
    byJob := map[];
    for i := 0 to |cs|
      invariant forall j :: j != NO_ID ==> (j in byJob <==> Observed(cs[..i], j).Some?)
      invariant forall j :: j != NO_ID && j in byJob ==> byJob[j] == Observed(cs[..i], j).value
    {
      var c := cs[i];
      assert cs[..i + 1][..i] == cs[..i] && cs[..i + 1][i] == c;
      if c.origin == ManagedOrigin && c.jobId != NO_ID {
        if c.jobId !in byJob || (!Consumes(byJob[c.jobId].state) && Consumes(c.state)) {
          byJob := byJob[c.jobId := c];
        }
      }
    }
    assert cs[..|cs|] == cs;
  }

  method FindStopConfirmation(commands: map<Id, Command>, job: Job, observedAt: Time) returns (ok: bool)
    ensures ok <==> StopConfirmed(commands, job, observedAt)
  {
    if job.status != Stopping || job.assignment.None? {
      return false;
    }
    var todo := commands.Keys;
    while todo != {}
      invariant todo <= commands.Keys
      invariant forall id :: id in commands && id !in todo ==> !StopConfirms(commands[id], job, observedAt)
      decreases todo
    {
      var id := Pick(todo);
      todo := todo - {id};
      if StopConfirms(commands[id], job, observedAt) {
        return true;
      }
    }
    ok := false;
  }

  /** The reason a stop is recorded with: the first one given wins. */
  method RecordTermination(job: Job, at: Time) returns (termination: Termination)
    ensures termination == StopTermination(job, at)
  {
    termination := job.termination;
    if termination == NoTermination {
      termination := UserCancelled;
      var w := job.RequestedWindow();
      if w.Valid() && at >= w.end {
        termination := TimeLimit;
      }
    }
  }

  /** A reported GPU already belongs to another host. */
  method ReportsForeignGPU(servers: map<Id, Server>, agentId: Id, gpus: seq<GPU>) returns (foreign: bool)
    ensures foreign <==> exists id, g, k ::
      id in servers && id != agentId && g in gpus && k in servers[id].gpus && g.uuid == k.uuid
  {
    var todo := servers.Keys;
    while todo != {}
      invariant todo <= servers.Keys
      invariant forall id, g, k ::
        id in servers && id !in todo && id != agentId && g in gpus && k in servers[id].gpus ==> g.uuid != k.uuid
      decreases todo
    {
      var id := Pick(todo);
      todo := todo - {id};
      if id == agentId {
        continue;
      }
      var known := servers[id].gpus;
      for i := 0 to |gpus|
        invariant forall g, k :: g in gpus[..i] && k in known ==> g.uuid != k.uuid
      {
        for n := 0 to |known|
          invariant forall k :: k in known[..n] ==> gpus[i].uuid != k.uuid
        {
          if gpus[i].uuid == known[n].uuid {
            assert gpus[i] in gpus && known[n] in known;
            return true;
          }
        }
        assert known[..|known|] == known && gpus[..i + 1] == gpus[..i] + [gpus[i]];
      }
      assert gpus[..|gpus|] == gpus;
    }
    foreign := false;
  }

  function StaleIds(servers: map<Id, Server>, before: Time): set<Id> {
    set s | s in servers && Stale(servers[s], before)
  }

  lemma MarkedIsStale(st: State, servers: map<Id, Server>, marked: set<Id>, before: Time)
    requires servers.Keys == st.servers.Keys
    requires forall s :: s in marked <==> s in st.servers && Stale(st.servers[s], before)
    requires forall s :: s in st.servers && s in marked ==> servers[s] == st.servers[s].(status := Offline)
    requires forall s :: s in st.servers && s !in marked ==> servers[s] == st.servers[s]
    ensures marked == StaleIds(st.servers, before)
    ensures st.(servers := servers) == StoreSpec.MarkStaleServers(st, before)
  {
    forall s ensures s in marked <==> s in StaleIds(st.servers, before) {
    }
    var spec := StoreSpec.MarkStaleServers(st, before).servers;
    assert servers.Keys == spec.Keys;
    assert forall s :: s in spec ==> servers[s] == spec[s];
    assert servers == spec;
  }

  lemma EndingKeepsExclusive(jobs: map<Id, Job>, job: Job)
    requires Exclusive(jobs) && job.status.Terminal()
    ensures Exclusive(jobs[job.id := job])
  {
  }

  /** The invariant follows the step. */
  lemma Performed(before: State, step: Step, after: State, error: Option<Error>)
    requires StoreSteps.Valid(before) && Legal(before, step) && Performs(before, step, after, error)
    ensures StoreSteps.Valid(after)
  {
    hide StoreSteps.Valid, Legal, Outcome, Progress;
    StepKeepsValid(before, step);
  }

  lemma SnapshotsAreSorted(st: State, jobs: seq<Job>, jobKeys: seq<Id>, servers: seq<Server>, serverKeys: seq<Id>)
    requires StoreSteps.Valid(st)
    requires |jobKeys| == |jobs| && DistinctIds(jobKeys) && forall k :: k in st.jobs ==> k in jobKeys
    requires forall i :: 0 <= i < |jobs| ==> jobKeys[i] in st.jobs && jobs[i] == st.jobs[jobKeys[i]]
    requires |serverKeys| == |servers| && DistinctIds(serverKeys) && forall k :: k in st.servers ==> k in serverKeys
    requires forall i :: 0 <= i < |servers| ==> serverKeys[i] in st.servers && servers[i] == st.servers[serverKeys[i]]
    ensures Sorting.Sort(JobIdBefore, jobs) == SnapshotJobs(st)
    ensures Sorting.Sort(ServerIdBefore, servers) == SnapshotServers(st)
  {
    ValidForRelease(st);
    hide StoreSteps.Valid;
    ValuesAreDistinct(st.jobs, jobs, jobKeys, (j: Job) => j.id);
    SortedSnapshot(st.jobs, jobs, (j: Job) => j.id, JobIdBefore);
    ValuesAreDistinct(st.servers, servers, serverKeys, (s: Server) => s.id);
    SortedSnapshot(st.servers, servers, (s: Server) => s.id, ServerIdBefore);
  }

  lemma SnapshotHardwareIsDistinct(st: State)
    requires StoreSteps.Valid(st)
    ensures forall s :: s in SnapshotServers(st) ==> DistinctUUIDs(s.gpus)
    ensures forall k :: k in st.jobs ==> st.jobs[k].id == k
  {
    hide JobsOk, CommandsOk, Tenants, HeldIsNotFree, GPUsUnshared, CalendarExclusive, Exclusive, SnapshotServers,
         DistinctUUIDs;
    ValidForRelease(st);
    SnapshotHasEverything(st);
    forall s | s in SnapshotServers(st) ensures DistinctUUIDs(s.gpus) {
      var k := Sorting.KeyOf(st.servers, s);
      assert ServerOk(st.servers[k]);
    }
  }

  lemma ClaimGrows(st: State, at: Time, plans: seq<PlanEntry>, i: nat)
    requires i < |plans| && Claimable(st, at, plans[..i])
    ensures var id := plans[i].jobId;
      Claimable(st, at, plans[..i + 1]) <==> id in st.jobs && st.jobs[id].Replannable(at) && id !in Ids(plans[..i])
    ensures Ids(plans[..i + 1]) == Ids(plans[..i]) + {plans[i].jobId}
  {
    hide Job.Replannable;
    var front, more := plans[..i], plans[..i + 1];
    assert more == front + [plans[i]];
    assert plans[i] in more;
    if plans[i].jobId in Ids(front) {
      var e :| e in front && e.jobId == plans[i].jobId;
      var k :| 0 <= k < i && front[k] == e;
      assert more[k].jobId == more[i].jobId;
    } else {
      assert forall k :: 0 <= k < i ==> front[k] in front && more[k] == front[k];
    }
  }

  lemma ClaimPrefix(st: State, at: Time, plans: seq<PlanEntry>, n: nat)
    requires Claimable(st, at, plans) && n <= |plans|
    ensures Claimable(st, at, plans[..n])
  {
    hide Job.Replannable;
    assert forall e :: e in plans[..n] ==> e in plans;
  }

  /** The first pass over a plan: every entry claims a different replannable job, whose reservation it clears. */
  method ClaimEntries(st: State, plans: seq<PlanEntry>, at: Time) returns (changed: map<Id, Job>, ok: bool)
    requires forall k :: k in st.jobs ==> st.jobs[k].id == k
    ensures ok <==> Claimable(st, at, plans)
    ensures ok ==> changed.Keys == Ids(plans)
    ensures ok ==> forall k :: k in changed ==> k in st.jobs && changed[k] == st.jobs[k].(assignment := None)
  {
    hide Job.Replannable, Claimable, Ids;
    changed := map[];
    NothingClaimed(st, at, plans);
    for i := 0 to |plans|
      invariant changed.Keys == Ids(plans[..i]) && Claimable(st, at, plans[..i])
      invariant forall k :: k in changed ==> k in st.jobs && changed[k] == st.jobs[k].(assignment := None)
    {
      var entry := plans[i];
      ClaimGrows(st, at, plans, i);
      if entry.jobId !in st.jobs || !st.jobs[entry.jobId].Replannable(at) || st.jobs[entry.jobId].id in changed {
        if Claimable(st, at, plans) { ClaimPrefix(st, at, plans, i + 1); }
        return changed, false;
      }
      changed := changed[entry.jobId := st.jobs[entry.jobId].(assignment := None)];
    }
    assert plans[..|plans|] == plans;
    ok := true;
  }

  lemma NothingClaimed(st: State, at: Time, plans: seq<PlanEntry>)
    ensures Claimable(st, at, plans[..0]) && Ids(plans[..0]) == {}
  {
  }

  method UnclaimedJobs(jobs: seq<Job>, ghost plans: seq<PlanEntry>, changed: map<Id, Job>) returns (bookings: seq<Job>)
    requires changed.Keys == Ids(plans)
    ensures bookings == NotPlanned(jobs, plans)
  {
    bookings := [];
    ghost var keep := (j: Job) => !Planned(plans, j.id);
    for i := 0 to |jobs|
      invariant bookings == Sorting.Filter(keep, jobs[..i])
    {
      assert jobs[..i + 1] == jobs[..i] + [jobs[i]];
      Sorting.FilterAppend(keep, jobs[..i], [jobs[i]]);
      assert Planned(plans, jobs[i].id) <==> jobs[i].id in changed;
      if jobs[i].id !in changed {
        bookings := bookings + [jobs[i]];
      }
    }
    assert jobs[..|jobs|] == jobs;
  }

  lemma PlaceAllStep(st: State, at: Time, plans: seq<PlanEntry>, servers: seq<Server>, batch: Batch)
    requires plans != [] && forall e :: e in plans ==> e.jobId in st.jobs
    ensures plans[0].jobId in st.jobs
    ensures var entry, job := plans[0], st.jobs[plans[0].jobId];
      PlaceAll(st, at, plans, servers, batch) ==
        if !EntryValid(st, at, entry, servers, batch.bookings) then Err(Conflict)
        else
          var placed := PlacedJob(job, entry, at);
          PlaceAll(st, at, plans[1..], servers,
            Batch(batch.changed[entry.jobId := placed],
                  if entry.placement.Some? then batch.bookings + [placed] else batch.bookings,
                  if entry.placement.Some? && !SamePlace(job.assignment, entry.placement.value) then batch.count + 1
                    else batch.count))
  {
  }

  lemma MapPlus(cleared: map<Id, Job>, placed: map<Id, Job>, id: Id, job: Job)
    ensures (cleared + placed)[id := job] == cleared + placed[id := job]
  {
  }

  /** The second pass: every placement is validated against the calendar that includes the entries before it. */
  method PlaceEntries(st: State, at: Time, plans: seq<PlanEntry>, servers: seq<Server>, cleared: map<Id, Job>,
                      booked: seq<Job>)
    returns (r: Result<Batch>)
    requires Claimable(st, at, plans) && cleared.Keys == Ids(plans)
    requires forall k :: k in cleared ==> cleared[k] == st.jobs[k].(assignment := None)
    requires forall k :: k in st.jobs ==> st.jobs[k].id == k
    requires forall s :: s in servers ==> DistinctUUIDs(s.gpus)
    ensures r == PlaceAll(st, at, plans, servers, Batch(map[], booked, 0))
  {
    hide EntryValid, PlacedJob, Job.Replannable, PlaceAll, Ids, SamePlace;
    var changed, bookings, count := cleared, booked, 0;
    ghost var placed: map<Id, Job> := map[];
    assert plans[0..] == plans && plans[..0] == [];
    NoIds();
    for i := 0 to |plans|
      invariant changed == cleared + placed && placed.Keys == Ids(plans[..i])
      invariant PlaceAll(st, at, plans[i..], servers, Batch(placed, bookings, count))
             == PlaceAll(st, at, plans, servers, Batch(map[], booked, 0))
    {
      var entry := plans[i];
      assert entry in plans && plans[i..][0] == entry && plans[i..][1..] == plans[i + 1..];
      IdsStep(plans, i);
      ClaimedIds(plans, i);
      PlaceAllStep(st, at, plans[i..], servers, Batch(placed, bookings, count));
      var job := changed[entry.jobId].(policy := entry.policy);
      var fits := EntryFits(st, at, entry, job, servers, bookings);
      if !fits {
        return Err(Conflict);
      }
      var previous := st.jobs[entry.jobId].assignment;
      if entry.placement.Some? && !SamePlace(previous, entry.placement.value) {
        count := count + 1;
      }
      job := Place(st.jobs[entry.jobId], job, entry, at);
      if entry.placement.Some? {
        bookings := bookings + [job];
      }
      MapPlus(cleared, placed, entry.jobId, job);
      changed := changed[entry.jobId := job];
      placed := placed[entry.jobId := job];
    }
    assert plans[|plans|..] == [] && plans[..|plans|] == plans;
    AllPlaced(st, at, plans, servers, cleared, placed, bookings, count);
    r := Ok(Batch(changed, bookings, count));
  }

  lemma NoIds()
    ensures Ids([]) == {}
  {
  }

  lemma ClaimedIds(plans: seq<PlanEntry>, i: nat)
    requires i < |plans|
    ensures plans[i].jobId in Ids(plans)
  {
  }

  lemma AllPlaced(st: State, at: Time, plans: seq<PlanEntry>, servers: seq<Server>, cleared: map<Id, Job>,
                  placed: map<Id, Job>,
                  bookings: seq<Job>, count: nat)
    requires cleared.Keys == placed.Keys
    ensures cleared + placed == placed
    ensures PlaceAll(st, at, [], servers, Batch(placed, bookings, count)) == Ok(Batch(placed, bookings, count))
  {
  }

  method EntryFits(st: State, at: Time, entry: PlanEntry, job: Job, servers: seq<Server>,
                   bookings: seq<Job>) returns (ok: bool)
    requires entry.jobId in st.jobs && job == st.jobs[entry.jobId].(assignment := None, policy := entry.policy)
    requires forall s :: s in servers ==> DistinctUUIDs(s.gpus)
    ensures ok <==> EntryValid(st, at, entry, servers, bookings)
  {
    hide PlacementMatches, CalendarServers, Server.Schedulable;
    if entry.placement.None? {
      return true;
    }
    var window := job.RequestedWindow();
    if !window.Valid() || at >= window.end {
      return false;
    }
    var p := entry.placement.value;
    var projected := ComputeCalendar(job, servers, bookings, at, st.offlineAfter);
    ProjectionKeepsDistinct(job, servers, bookings, at, st.offlineAfter);
    for i := 0 to |projected|
      invariant forall s :: s in projected[..i] ==>
        !(s.id == p.serverId && s.Schedulable(at, st.offlineAfter) && PlacementMatches(job, s, p))
    {
      var server := projected[i];
      assert projected[..i + 1] == projected[..i] + [server];
      if server.id == p.serverId && server.Schedulable(at, st.offlineAfter) {
        var matches := PlacementFits(job, server, p);
        if matches {
          assert server in projected;
          return true;
        }
      }
    }
    assert projected[..|projected|] == projected;
    ok := false;
  }

  lemma ProjectionKeepsDistinct(job: Job, servers: seq<Server>, bookings: seq<Job>, now: Time, offlineAfter: int)
    requires forall s :: s in servers ==> DistinctUUIDs(s.gpus)
    ensures forall s :: s in CalendarServers(job, servers, bookings, now, offlineAfter) ==> DistinctUUIDs(s.gpus)
  {
    ProjectAllMembers(job, servers, bookings, now, offlineAfter);
    hide ProjectGPU, Eligible;
    forall s | s in servers ensures DistinctUUIDs(ProjectServer(job, s, bookings, now).gpus) {
      forall i | 0 <= i < |s.gpus| ensures ProjectServer(job, s, bookings, now).gpus[i].uuid == s.gpus[i].uuid {
        ProjectionKeepsUUID(job, s.id, s.gpus[i], bookings, now);
      }
    }
  }

  lemma ProjectionKeepsUUID(job: Job, serverId: Id, gpu: GPU, bookings: seq<Job>, now: Time)
    ensures ProjectGPU(job, serverId, gpu, bookings, now).uuid == gpu.uuid
  {
    BlockExactly(job, serverId, Vacate(job, serverId, gpu, bookings, now), bookings);
  }

  /** The job after its entry was accepted, from its stored state and its cleared copy. */
  method Place(stored: Job, cleared: Job, entry: PlanEntry, at: Time) returns (job: Job)
    requires cleared == stored.(assignment := None, policy := entry.policy)
    ensures job == PlacedJob(stored, entry, at)
  {
    job := cleared;
    if entry.placement.None? {
      job := Transition(job, Queued, entry.reason, at);
    } else {
      var window, p := job.RequestedWindow(), entry.placement.value;
      var a := Assignment(window.start, window.end, p.serverId, p.gpus, NO_ID, at, PlannedState, None, p.strategy,
                          p.score, entry.reason);
      if SamePlace(stored.assignment, p) {
        a := a.(assignedAt := stored.assignment.value.assignedAt);
      }
      job := job.(assignment := Some(a));
      job := Transition(job, Assigned, entry.reason, at);
    }
  }

  function DeliverAll(batch: seq<Command>, now: Time, lease: int): seq<Command> {
    seq(|batch|, i requires 0 <= i < |batch| => Deliver(batch[i], now, lease))
  }

  lemma DeliveredCommands(before: map<Id, Command>, after: map<Id, Command>, batch: seq<Command>, now: Time, lease: int)
    requires after.Keys == before.Keys
    requires forall k :: k in before && before[k] in batch ==> after[k] == Deliver(before[k], now, lease)
    requires forall k :: k in before && before[k] !in batch ==> after[k] == before[k]
    ensures after == map k | k in before :: if before[k] in batch then Deliver(before[k], now, lease) else before[k]
  {
    hide Deliver;
    var spec := map k | k in before :: if before[k] in batch then Deliver(before[k], now, lease) else before[k];
    assert after.Keys == spec.Keys;
    assert forall k :: k in spec ==> after[k] == spec[k];
    assert after == spec;
  }

  lemma DeliverKeepsId(c: Command, now: Time, lease: int)
    ensures Deliver(c, now, lease).id == c.id
  {
  }

  lemma PlacesAreDistinct(st: State, s: Id, j: Id)
    requires StoreSteps.Valid(st) && s in st.servers && j in st.jobs
    ensures DistinctUUIDs(st.servers[s].gpus)
    ensures st.jobs[j].assignment.Some? ==> DistinctIds(st.jobs[j].assignment.value.gpus)
  {
    assert ServerOk(st.servers[s]) && JobOk(st.jobs[j]);
  }

  /** Every reserved GPU is present and still owned by the job. */
  method OwnsAll(job: Job, gpus: seq<GPU>, uuids: seq<Id>) returns (ok: bool)
    requires DistinctUUIDs(gpus) && DistinctIds(uuids)
    ensures ok <==>
      (forall u :: u in uuids ==> exists g :: g in gpus && g.uuid == u)
        && (forall g :: g in gpus && g.uuid in uuids ==> Owned(job, g))
  {
    hide Owned, Present, DistinctUUIDs, DistinctIds, IdSet;
    var found := 0;
    NothingPresent(gpus, IdSet(uuids));
    for i := 0 to |gpus|
      invariant found == |Present(gpus[..i], IdSet(uuids))|
      invariant forall g :: g in gpus[..i] && g.uuid in uuids ==> Owned(job, g)
    {
      PresentGrows(gpus, i, IdSet(uuids));
      OwnedMeans(job, gpus[i]);
      InIdSet(uuids, gpus[i].uuid);
      if gpus[i].uuid !in uuids {
        continue;
      }
      if !gpus[i].healthy || gpus[i].assignedJob != job.id
        || (gpus[i].state != Reserved && gpus[i].state != Allocated) {
        assert gpus[i] in gpus;
        return false;
      }
      found := found + 1;
    }
    assert gpus[..|gpus|] == gpus;
    AllPresent(gpus, uuids);
    DistinctIdsCount(uuids);
    ok := found == |uuids|;
  }

  lemma OwnedMeans(job: Job, g: GPU)
    ensures Owned(job, g) <==> !(!g.healthy || g.assignedJob != job.id || (g.state != Reserved && g.state != Allocated))
  {
  }

  lemma InIdSet(ids: seq<Id>, id: Id)
    ensures id in IdSet(ids) <==> id in ids
  {
  }

  lemma LeasableAreOrdered(st: State, agentId: Id, now: Time, cs: seq<Command>)
    requires forall k :: k in st.commands ==> st.commands[k].id == k
    requires forall c :: c in cs ==> c in LeasableCommands(st, agentId, now)
    ensures Sorting.StrictTotalOn(CommandBefore, cs)
  {
    hide Leasable;
    assert forall c :: c in cs ==> c.id in st.commands && st.commands[c.id] == c;
  }

  lemma SortedIsDistinct(cs: seq<Command>)
    requires Sorting.Sorted(CommandBefore, cs)
    ensures Sorting.Distinct(cs)
  {
  }

  lemma BatchIsSorted(st: State, agentId: Id, now: Time, limit: int, eligible: seq<Command>)
    requires forall k :: k in st.commands ==> st.commands[k].id == k
    requires Sorting.Distinct(eligible) && forall c :: c in eligible <==> c in LeasableCommands(st, agentId, now)
    ensures var sorted, n := Sorting.Sort(CommandBefore, eligible), if limit <= 0 then 10 else limit;
      LeaseBatch(st, agentId, now, limit) == if |sorted| > n then sorted[..n] else sorted
    ensures Sorting.Sorted(CommandBefore, Sorting.Sort(CommandBefore, eligible))
  {
    hide Leasable, CommandBefore;
    LeasableAreOrdered(st, agentId, now, eligible);
    Sorting.SortIsCanonical(CommandBefore, eligible, Sorting.Elements(LeasableCommands(st, agentId, now)));
    Sorting.SortSorts(CommandBefore, eligible);
  }

  lemma LeaseBatchIsKeyed(st: State, agentId: Id, now: Time, limit: int)
    requires forall k :: k in st.commands ==> st.commands[k].id == k
    ensures Sorting.Distinct(LeaseBatch(st, agentId, now, limit))
    ensures forall c :: c in LeaseBatch(st, agentId, now, limit) ==> c.id in st.commands && st.commands[c.id] == c
  {
    hide Leasable, CommandBefore;
    var all := Sorting.Elements(LeasableCommands(st, agentId, now));
    LeasableAreOrdered(st, agentId, now, all);
    Sorting.SortSorts(CommandBefore, all);
    Sorting.SortPermutes(CommandBefore, all);
    SortedIsDistinct(Sorting.Sort(CommandBefore, all));
    forall c | c in LeaseBatch(st, agentId, now, limit) ensures c.id in st.commands && st.commands[c.id] == c {
      LeasedIsLeasable(st, agentId, now, limit, c);
    }
  }

  lemma AllReconciled(before: State, jobs: map<Id, Job>, serverId: Id, report: Report)
    requires PartlyReconciled(before, jobs, {}, serverId, report)
    ensures jobs == Reconcile(before.jobs, serverId, report, before.commands)
  {
    hide ReconcileJob;
    var spec := Reconcile(before.jobs, serverId, report, before.commands);
    assert jobs.Keys == spec.Keys;
    assert forall k :: k in spec ==> jobs[k] == spec[k];
    assert jobs == spec;
  }

  lemma OneHostDiffers(before: map<Id, Server>, after: map<Id, Server>, id: Id, server: Server)
    requires after.Keys == before.Keys && id in before
    requires forall s :: s in before && s != id ==> after[s] == before[s]
    ensures after[id := server] == before[id := server]
  {
    assert after[id := server].Keys == before[id := server].Keys;
  }

  // ---------------------------------------------------------------- The inventory step

  /** A host after a report, before its GPUs are accounted again. */
  function Refreshed(server: Server, report: Report): Server {
    server.(version := report.sequence, lastHeartbeat := report.receivedAt,
            caps := if report.caps.Some? then Some(report.caps.value.Normalize()) else server.caps,
            inventoryReceived := if Complete(report) then report.receivedAt else ZERO_TIME,
            containers := if DockerValid(report) then report.containers else server.containers,
            status := if server.drained then Draining else Online)
  }

  method RefreshHost(before: Server, report: Report) returns (server: Server)
    ensures server == Refreshed(before, report)
    ensures server.containers == if DockerValid(report) then report.containers else before.containers
  {
    server := before.(version := report.sequence, lastHeartbeat := report.receivedAt);
    var gpuValid, dockerValid := true, true;
    if report.caps.Some? {
      gpuValid, dockerValid := report.caps.value.gpuInventory, report.caps.value.docker;
      server := server.(caps := Some(report.caps.value.Normalize()));
    }
    server := server.(inventoryReceived := ZERO_TIME);
    if gpuValid && dockerValid {
      server := server.(inventoryReceived := report.receivedAt);
    }
    if dockerValid {
      server := server.(containers := report.containers);
    }
    if server.drained {
      server := server.(status := Draining);
    } else {
      server := server.(status := Online);
    }
  }

  lemma ForeignMeans(st: State, agentId: Id, report: Report)
    ensures ForeignGPU(st, agentId, report) <==>
      exists id, g, k :: id in st.servers && id != agentId && g in report.gpus && k in st.servers[id].gpus
        && g.uuid == k.uuid
  {
  }

  /** The refused reports change nothing. */
  lemma InventoryRefused(st: State, agentId: Id, report: Report)
    ensures agentId !in st.servers ==> Performs(st, InventoryStep(agentId, report), st, Some(NotFound))
    ensures agentId in st.servers && report.sequence <= st.servers[agentId].version ==>
      Performs(st, InventoryStep(agentId, report), st, Some(StaleInventory))
    ensures
      agentId in st.servers && report.sequence > st.servers[agentId].version && ForeignGPU(st, agentId, report) ==>
        Performs(st, InventoryStep(agentId, report), st, Some(Conflict))
  {
    hide ForeignGPU, NormalizeGPUs, Reconcile;
  }

  /** An accepted report: reconciled jobs, and the refreshed host over whatever reconciliation left in its place. */
  lemma InventoryPerformed(st: State, agentId: Id, incoming: Report, report: Report, jobs: map<Id, Job>,
                           reconciled: map<Id, Server>, server: Server)
    requires agentId in st.servers && incoming.sequence > st.servers[agentId].version
      && !ForeignGPU(st, agentId, incoming)
    requires report == Stamped(incoming)
    requires jobs == if Complete(report) then Reconcile(st.jobs, agentId, report, st.commands) else st.jobs
    requires reconciled.Keys == st.servers.Keys
    requires forall s :: s in st.servers && s != agentId ==> reconciled[s] == st.servers[s]
    requires var host := Refreshed(st.servers[agentId], report);
      server == if GPUValid(report)
                then host.(gpus := NormalizeGPUs(agentId, report.gpus, host.containers, report.processes, jobs))
                  else host
    ensures Performs(st, InventoryStep(agentId, incoming),
                     st.(jobs := jobs, servers := reconciled[agentId := server]), None)
  {
    hide ForeignGPU, NormalizeGPUs, Reconcile, Capabilities.Normalize;
    OneHostDiffers(st.servers, reconciled, agentId, server);
  }

  lemma StatusPerforms(st: State, step: Step)
    requires step.StatusStep?
    ensures step.jobId !in st.jobs ==> Performs(st, step, st, Some(NotFound))
    ensures step.jobId in st.jobs ==>
      var job := Transition(st.jobs[step.jobId], step.status, step.reason, step.at);
      Performs(st, step,
               if StatusIgnored(st.jobs[step.jobId], step.status) then st
               else if step.status.Terminal() then Finish(st, job, step.at)
               else st.(jobs := st.jobs[step.jobId := job]), None)
  {
    hide Finish, Transition, StatusIgnored;
  }

  /** The refusals of a dispatch, in the order they are checked. */
  lemma CommitRefused(st: State, step: Step)
    requires step.CommitStep?
    ensures step.jobId !in st.jobs ==> Performs(st, step, st, Some(NotFound))
    ensures step.jobId in st.jobs ==>
      var job, p := st.jobs[step.jobId], step.placement;
      if !Dispatchable(job, p, step.command, step.at) then Performs(st, step, st, Some(Conflict))
      else if p.serverId !in st.servers then Performs(st, step, st, Some(NotFound))
      else
        !st.servers[p.serverId].Schedulable(step.at, st.offlineAfter)
          || step.command.agentId != st.servers[p.serverId].id
        || step.command.id in st.commands || !PlacementMatches(job, st.servers[p.serverId], p)
        ==> Performs(st, step, st, Some(Conflict))
  {
    hide PlacementMatches, Dispatchable, CommittedJob, Server.Schedulable;
  }

  lemma CommitPerformed(st: State, step: Step, job: Job, gpus: seq<GPU>)
    requires step.CommitStep? && step.jobId in st.jobs && step.placement.serverId in st.servers
    requires var stored, server := st.jobs[step.jobId], st.servers[step.placement.serverId];
      && Dispatchable(stored, step.placement, step.command, step.at) && server.Schedulable(step.at, st.offlineAfter)
      && step.command.agentId == server.id && step.command.id !in st.commands
      && PlacementMatches(stored, server, step.placement)
      && stored.id == job.id && job == CommittedJob(stored, step.placement, step.command, step.at)
      && gpus == ReserveGPUs(server.gpus, step.placement.gpus, step.jobId)
    ensures var server := st.servers[step.placement.serverId];
      Performs(st, step, st.(servers := st.servers[server.id := server.(gpus := gpus)], jobs := st.jobs[job.id := job],
                             commands := st.commands[step.command.id := step.command]), None)
  {
    hide PlacementMatches, Dispatchable, CommittedJob, Server.Schedulable, ReserveGPUs;
  }

  lemma ReconciledIsExclusive(before: State, agentId: Id, report: Report)
    requires StoreSteps.Valid(before)
    ensures WellKeyed(before.jobs) && Exclusive(before.jobs)
    ensures var jobs := Reconcile(before.jobs, agentId, report, before.commands); WellKeyed(jobs) && Exclusive(jobs)
  {
    hide ReconcileJob, StoreSteps.Valid, Exclusive, WellKeyed;
    ValidForRelease(before);
    MixedStaysExclusive(before, Reconcile(before.jobs, agentId, report, before.commands), {}, agentId, report);
  }

  /** The jobs still to visit are as before, the others are reconciled. */
  ghost predicate PartlyReconciled(before: State, jobs: map<Id, Job>, todo: set<Id>, serverId: Id, report: Report) {
    && jobs.Keys == before.jobs.Keys
    && (forall k :: k in jobs && k in todo ==> jobs[k] == before.jobs[k])
    && (forall k :: k in jobs && k !in todo ==>
            jobs[k] == ReconcileJob(before.jobs[k], serverId, report, before.commands))
  }

  lemma ReconciledMore(before: State, jobs: map<Id, Job>, todo: set<Id>, serverId: Id, report: Report, id: Id, job: Job)
    requires PartlyReconciled(before, jobs, todo, serverId, report) && id in todo && id in jobs
    requires job == ReconcileJob(jobs[id], serverId, report, before.commands)
    ensures PartlyReconciled(before, jobs[id := job], todo - {id}, serverId, report)
  {
    hide ReconcileJob;
  }

  lemma NothingReconciled(before: State, serverId: Id, report: Report)
    ensures PartlyReconciled(before, before.jobs, before.jobs.Keys, serverId, report)
  {
  }

  lemma WriteTwice(jobs: map<Id, Job>, id: Id, a: Job, b: Job)
    ensures jobs[id := a][id := b] == jobs[id := b]
  {
  }

  lemma MixedStaysExclusive(before: State, jobs: map<Id, Job>, todo: set<Id>, serverId: Id, report: Report)
    requires StoreSteps.Valid(before) && PartlyReconciled(before, jobs, todo, serverId, report)
    ensures WellKeyed(jobs) && Exclusive(jobs)
    ensures jobs.Keys == before.jobs.Keys && forall k :: k in jobs ==> jobs[k].id == k != NO_ID
  {
    hide ReconcileJob, CommandsOk, ServersOk, Tenants, HeldIsNotFree, GPUsUnshared, CalendarExclusive, JobOk, Evolves,
         Holds;
    forall k | k in jobs
      ensures jobs[k].id == k != NO_ID
      ensures forall s, u :: Holds(jobs[k], s, u) ==> Holds(before.jobs[k], s, u)
    {
      if k !in todo {
        ReconciledJobOk(before.jobs[k], serverId, report, before.commands);
        forall s, u { EvolvedHolds(before.jobs[k], jobs[k], s, u); }
      }
    }
  }

  lemma ReleaseTouchesOneHost(st: State, job: Job, at: Time)
    requires forall s :: s in st.servers ==> st.servers[s].id == s
    ensures var next := Release(st, job, at);
      && next.servers.Keys == st.servers.Keys && (forall s :: s in next.servers ==> next.servers[s].id == s)
      && (forall s :: s in st.servers && (job.assignment.Some? ==> s != job.assignment.value.serverId) ==>
              next.servers[s] == st.servers[s])
      && next.jobs == (if job.assignment.None? then st.jobs else st.jobs[job.id := Released(job, at)])
      && next.commands == st.commands
  {
  }

  /** One job of the loop: its new state, still unreleased, and whether its reservation ends. */
  method ReconcileOne(before: Job, byJob: map<Id, Container>, serverId: Id, report: Report, commands: map<Id, Command>)
    returns (job: Job, ends: bool)
    requires before.id != NO_ID
    requires forall j :: j != NO_ID ==> (j in byJob <==> Observed(report.containers, j).Some?)
    requires forall j :: j != NO_ID && j in byJob ==> byJob[j] == Observed(report.containers, j).value
    ensures (if ends then Released(job, report.receivedAt) else job) == ReconcileJob(before, serverId, report, commands)
    ensures job.id == before.id
    ensures ends ==> job.status.Terminal() && job.assignment.Some? && job.assignment.value.serverId == serverId
  {
    hide StopConfirmed;
    job, ends := before, false;
    if job.assignment.None? || job.assignment.value.serverId != serverId || job.status.Terminal() {
      return;
    }
    if job.assignment.value.commandId == NO_ID {
      return;
    }
    var start := CommandAt(commands, job.assignment.value.commandId);
    var confirmed := FindStopConfirmation(commands, job, report.observedAt);
    if job.id in byJob {
      var observed := byJob[job.id];
      job := job.(containerId := observed.id, lastObserved := Some(report.observedAt));
      if Consumes(observed.state) {
        job := job.(assignment := Some(job.assignment.value.(state := AllocatedState)));
        if job.status == Assigned || job.status == Starting {
          job := Transition(job, RunningJob, ObservedActive, report.receivedAt);
        }
      } else if observed.state == Exited || observed.state == Dead {
        var status, reason := Failed, ExitedUnknown;
        if job.status == Stopping || job.termination == TimeLimit {
          status, reason := Stopped, ObservedStopped;
        } else if observed.exitCode == Some(0) {
          status, reason := Succeeded, ExitedOk;
        } else if observed.exitCode.Some? {
          reason := ExitedWith(observed.exitCode.value);
        }
        if status == Failed {
          job := job.(termination := ExecutionError);
        }
        job := Transition(job, status, reason, report.receivedAt);
        ends := true;
      }
    } else if (job.status == RunningJob || job.status == Stopping || job.status == Starting)
              && (StartConfirmed(start, report.observedAt) || confirmed) {
      var status, reason := Failed, MissingFromInventory;
      if job.status == Stopping {
        status, reason := Stopped, AbsentAfterStop;
      }
      job := Transition(job, status, reason, report.receivedAt);
      ends := true;
    }
  }

  method ReserveLoop(gpus: seq<GPU>, wanted: seq<Id>, jobId: Id) returns (reserved: seq<GPU>)
    ensures reserved == ReserveGPUs(gpus, wanted, jobId)
  {
    reserved := [];
    for i := 0 to |gpus|
      invariant |reserved| == i
      invariant forall k :: 0 <= k < i ==> reserved[k] == ReserveGPUs(gpus, wanted, jobId)[k]
    {
      var gpu := gpus[i];
      if gpu.uuid in wanted {
        gpu := gpu.(state := Reserved, assignedJob := jobId);
      }
      reserved := reserved + [gpu];
    }
    assert reserved == ReserveGPUs(gpus, wanted, jobId);
  }

  lemma HardwareIsDistinct(st: State, s: Id)
    requires StoreSteps.Valid(st) && s in st.servers
    ensures DistinctUUIDs(st.servers[s].gpus)
  {
    assert ServerOk(st.servers[s]);
  }

  lemma ValidForRelease(st: State)
    requires StoreSteps.Valid(st)
    ensures WellKeyed(st.jobs) && Exclusive(st.jobs)
    ensures forall s :: s in st.servers ==> st.servers[s].id == s
    ensures forall k :: k in st.jobs ==> st.jobs[k].id == k != NO_ID
    ensures forall k :: k in st.commands ==> st.commands[k].id == k
  {
  }

  lemma TransitionStatus(job: Job, status: JobStatus, reason: Reason, at: Time)
    requires !job.status.Terminal()
    ensures Transition(job, status, reason, at).id == job.id && Transition(job, status, reason, at).status == status
  {
  }

  lemma TransitionKeepsId(job: Job, status: JobStatus, reason: Reason, at: Time)
    ensures Transition(job, status, reason, at).id == job.id
  {
  }

  lemma FinishStores(st: State, job: Job, at: Time)
    ensures job.id in Finish(st, job, at).jobs
  {
  }

  lemma FinishIsReleaseThenStore(st: State, job: Job, at: Time)
    ensures var released := Release(st, job, at);
      Finish(st, job, at) == released.(jobs := released.jobs[job.id := Released(job, at)])
  {
    assert st.jobs[job.id := job][job.id := Released(job, at)] == st.jobs[job.id := Released(job, at)];
    assert st.jobs[job.id := Released(job, at)][job.id := Released(job, at)] == st.jobs[job.id := Released(job, at)];
  }
}
