/** Planning twice at the same instant changes nothing the second time, events included. */
module PlannerIdempotence {
  import opened Domain
  import opened Calendar
  import opened StoreSpec
  import opened StoreSteps
  import opened StoreInvariant
  import opened ReplanInvariant
  import opened Planner
  import opened PlannerAgreement
  import opened PlannerFairness
  import Policy
  import Scheduler
  import Sorting

  // ---------------------------------------------------------------- What one batch writes

  lemma {:induction false} PlaceAllWrites(st: State, at: Time, plans: seq<PlanEntry>, servers: seq<Server>,
                                          batch: Batch)
    requires forall e :: e in plans ==> e.jobId in st.jobs
    requires forall i, j :: 0 <= i < j < |plans| ==> plans[i].jobId != plans[j].jobId
    requires PlaceAll(st, at, plans, servers, batch).Ok?
    ensures var r := PlaceAll(st, at, plans, servers, batch).value;
      && r.changed.Keys == batch.changed.Keys + Ids(plans)
      && (forall e :: e in plans ==> e.jobId in r.changed && r.changed[e.jobId] == PlacedJob(st.jobs[e.jobId], e, at))
      && (forall k :: k in batch.changed && k !in Ids(plans) ==> r.changed[k] == batch.changed[k])
    decreases |plans|
  {
    hide EntryValid, PlacedJob, SamePlace, Ids;
    IdsOfNothing(plans);
    if plans != [] {
      var entry := plans[0];
      IdsCons(plans);
      var placed := PlacedJob(st.jobs[entry.jobId], entry, at);
      var next := Batch(batch.changed[entry.jobId := placed],
                        if entry.placement.Some? then batch.bookings + [placed] else batch.bookings,
                        if entry.placement.Some? && !SamePlace(st.jobs[entry.jobId].assignment, entry.placement.value)
                        then batch.count + 1 else batch.count);
      PlaceAllWrites(st, at, plans[1..], servers, next);
    }
  }

  lemma IdsOfNothing(plans: seq<PlanEntry>)
    ensures plans == [] ==> Ids(plans) == {}
  {
  }

  lemma IdsCons(plans: seq<PlanEntry>)
    requires plans != [] && forall i, j :: 0 <= i < j < |plans| ==> plans[i].jobId != plans[j].jobId
    ensures plans[0].jobId !in Ids(plans[1..]) && Ids(plans) == {plans[0].jobId} + Ids(plans[1..])
    ensures plans[0] in plans && forall e :: e in plans <==> e == plans[0] || e in plans[1..]
    ensures forall e :: e in plans[1..] ==> e.jobId in Ids(plans[1..])
  {
    assert plans == [plans[0]] + plans[1..];
    forall e | e in plans[1..] ensures e.jobId != plans[0].jobId {
      var i :| 0 <= i < |plans[1..]| && plans[1..][i] == e;
      assert plans[i + 1] == e;
    }
  }

  ghost predicate NothingMoves(st: State, plans: seq<PlanEntry>) {
    forall e :: e in plans ==> e.jobId in st.jobs && !Moved(st, e)
  }

  /** The entry gives its job a place it did not have. */
  predicate Moved(st: State, e: PlanEntry) {
    e.jobId in st.jobs && e.placement.Some? && !SamePlace(st.jobs[e.jobId].assignment, e.placement.value)
  }

  lemma {:induction false} PlaceAllCounts(st: State, at: Time, plans: seq<PlanEntry>, servers: seq<Server>,
                                          batch: Batch)
    requires forall e :: e in plans ==> e.jobId in st.jobs
    requires PlaceAll(st, at, plans, servers, batch).Ok?
    ensures PlaceAll(st, at, plans, servers, batch).value.count
      == batch.count + |Sorting.Filter((e: PlanEntry) => Moved(st, e), plans)|
    decreases |plans|
  {
    hide EntryValid, PlacedJob, SamePlace;
    if plans != [] {
      var entry := plans[0];
      assert entry in plans && (forall e :: e in plans[1..] ==> e in plans);
      var placed := PlacedJob(st.jobs[entry.jobId], entry, at);
      PlaceAllCounts(st, at, plans[1..], servers,
                     Batch(batch.changed[entry.jobId := placed],
                           if entry.placement.Some? then batch.bookings + [placed] else batch.bookings,
                           if Moved(st, entry) then batch.count + 1 else batch.count));
    }
  }

  /** Replanning returns the number of jobs that got a place they did not have. */
  lemma ReplanCountsMoves(st: State, at: Time, plans: seq<PlanEntry>)
    requires Replan(st, at, plans).Ok?
    ensures Replan(st, at, plans).value.count == |Sorting.Filter((e: PlanEntry) => Moved(st, e), plans)|
  {
    hide PlaceAll, NotPlanned, SnapshotServers, Job.Replannable, Moved;
    PlaceAllCounts(st, at, plans, SnapshotServers(st), Batch(map[], NotPlanned(SnapshotJobs(st), plans), 0));
  }

  // ---------------------------------------------------------------- One job, planned twice

  /** Accepting the same entry again rewrites the job to itself: same place, same reason, no new event. */
  lemma PlacingTwice(job: Job, entry: PlanEntry, at: Time)
    requires !job.status.Terminal()
    ensures var once := PlacedJob(job, entry, at);
      && PlacedJob(once, entry, at) == once
      && (entry.placement.Some? ==> SamePlace(once.assignment, entry.placement.value))
  {
  }

  /** The planner cannot tell these two jobs apart. */
  predicate Alike(j: Job, k: Job) {
    SameRequest(j, k) && j.policy == k.policy && j.necessity == k.necessity && j.importance == k.importance
    && j.createdAt == k.createdAt && !j.status.Terminal() && !k.status.Terminal()
  }

  ghost predicate AllAlike(xs: seq<Job>, ys: seq<Job>) {
    |xs| == |ys| && forall i :: 0 <= i < |xs| ==> Alike(xs[i], ys[i])
  }

  lemma PlacedStaysCandidate(config: Config, job: Job, entry: PlanEntry, now: Time)
    requires JobOk(job) && Candidate(config, now, job) && (entry.placement.Some? ==> job.RequestedWindow().start > now)
    ensures Candidate(config, now, PlacedJob(job, entry, now))
    ensures Alike(job.(policy := entry.policy), PlacedJob(job, entry, now))
  {
  }

  // ---------------------------------------------------------------- Order and plan read only that much

  lemma {:induction false} InsertAlike(x: Job, y: Job, xs: seq<Job>, ys: seq<Job>)
    requires Alike(x, y) && AllAlike(xs, ys)
    ensures AllAlike(Sorting.Insert(Policy.Before, x, xs), Sorting.Insert(Policy.Before, y, ys))
    decreases |xs|
  {
    if xs != [] {
      assert Alike(xs[0], ys[0]);
      InsertAlike(x, y, xs[1..], ys[1..]);
    }
  }

  lemma {:induction false} SortAlike(xs: seq<Job>, ys: seq<Job>)
    requires AllAlike(xs, ys)
    ensures AllAlike(Sorting.Sort(Policy.Before, xs), Sorting.Sort(Policy.Before, ys))
    decreases |xs|
  {
    hide Alike, Policy.Before;
    if xs != [] {
      assert Alike(xs[0], ys[0]);
      SortAlike(xs[1..], ys[1..]);
      InsertAlike(xs[0], ys[0], Sorting.Sort(Policy.Before, xs[1..]), Sorting.Sort(Policy.Before, ys[1..]));
    }
  }

  lemma EvaluatedAlike(j: Job, k: Job, facts: Policy.Facts, now: Time)
    requires Alike(j.(policy := k.policy), k)
    ensures Alike(Policy.Evaluated(j, facts, now), Policy.Evaluated(k, facts, now))
  {
  }

  lemma {:induction false} CandidatesRead(strategy: Strategy, j: Job, k: Job, cs: seq<Server>, now: Time, off: int)
    requires SameRequest(j, k) && j.resources.gpuCount > 0
    ensures Scheduler.Candidates(strategy, j, cs, now, off) == Scheduler.Candidates(strategy, k, cs, now, off)
    decreases |cs|
  {
    hide Scheduler.Matching, Scheduler.FreeCount, Scheduler.Score, Server.Schedulable;
    if cs != [] {
      CandidatesRead(strategy, j, k, cs[1..], now, off);
    }
  }

  lemma EntryReads(config: Config, j: Job, k: Job, servers: seq<Server>, xs: seq<Job>, ys: seq<Job>, now: Time)
    requires Alike(j, k) && SameBookings(xs, ys) && j.resources.gpuCount > 0
    ensures EntryFor(config, j, servers, xs, now) == EntryFor(config, k, servers, ys, now)
  {
    hide Scheduler.Candidates, CalendarServers, SameBookings, Sorting.Sort;
    CalendarReads(j, k, servers, xs, ys, now, config.offlineAfter);
    CandidatesRead(config.strategy, j, k, CalendarServers(j, servers, xs, now, config.offlineAfter), now,
                   config.offlineAfter);
  }

  lemma HeldReads(j: Job, k: Job, entry: PlanEntry, xs: seq<Job>, ys: seq<Job>)
    requires Alike(j, k) && SameBookings(xs, ys)
    ensures SameBookings(WithHeld(xs, j, entry), WithHeld(ys, k, entry))
  {
    hide BookingOf;
    if entry.placement.Some? {
      HeldBookings(j, k, entry.placement.value);
    }
  }

  lemma HeldBookings(j: Job, k: Job, p: Placement)
    requires Alike(j, k)
    ensures BookingOf(Held(j, p)) == BookingOf(Held(k, p))
  {
  }

  lemma {:induction false} QueueReads(config: Config, xs: seq<Job>, ys: seq<Job>, servers: seq<Server>, bs: seq<Job>,
                                      cs: seq<Job>, now: Time)
    requires AllAlike(xs, ys) && Sized(xs) && SameBookings(bs, cs)
    ensures PlanQueue(config, xs, servers, bs, now) == PlanQueue(config, ys, servers, cs, now)
    decreases |xs|
  {
    hide EntryFor, WithHeld, Alike, SameBookings;
    if xs != [] {
      assert Alike(xs[0], ys[0]) && xs[0] in xs && forall j :: j in xs[1..] ==> j in xs;
      EntryReads(config, xs[0], ys[0], servers, bs, cs, now);
      EntryAlwaysDecided(config, xs[0], servers, bs, now);
      var entry := EntryFor(config, xs[0], servers, bs, now).value;
      HeldReads(xs[0], ys[0], entry, bs, cs);
      QueueReads(config, xs[1..], ys[1..], servers, WithHeld(bs, xs[0], entry), WithHeld(cs, ys[0], entry), now);
    }
  }

  // ---------------------------------------------------------------- The two snapshots, position by position

  /** How a job of the first snapshot appears in the second. */
  ghost predicate Carried(config: Config, now: Time, j: Job, k: Job) {
    && Candidate(config, now, j) == Candidate(config, now, k)
    && (if Candidate(config, now, j) then Alike(j.(policy := k.policy), k) else k == j)
  }

  ghost predicate AllCarried(config: Config, now: Time, xs: seq<Job>, ys: seq<Job>) {
    |xs| == |ys| && forall i :: 0 <= i < |xs| ==> Carried(config, now, xs[i], ys[i])
  }

  lemma {:induction false} CarriedSplit(config: Config, now: Time, xs: seq<Job>, ys: seq<Job>)
    requires AllCarried(config, now, xs, ys)
    ensures Fixed(config, xs, now) == Fixed(config, ys, now)
    ensures AllAlike(Policy.EvaluateAll(Candidates(config, xs, now), config.facts, now),
                     Policy.EvaluateAll(Candidates(config, ys, now), config.facts, now))
    decreases |xs|
  {
    hide Candidate, Alike;
    if xs != [] {
      assert Carried(config, now, xs[0], ys[0]);
      CarriedSplit(config, now, xs[1..], ys[1..]);
      var cs, ds := Candidates(config, xs[1..], now), Candidates(config, ys[1..], now);
      if Candidate(config, now, xs[0]) {
        EvaluatedAlike(xs[0], ys[0], config.facts, now);
        EvaluateCons(xs[0], cs, config.facts, now);
        EvaluateCons(ys[0], ds, config.facts, now);
      }
    }
  }

  lemma EvaluateCons(x: Job, xs: seq<Job>, facts: Policy.Facts, now: Time)
    ensures Policy.EvaluateAll([x] + xs, facts, now)
      == [Policy.Evaluated(x, facts, now)] + Policy.EvaluateAll(xs, facts, now)
  {
  }

  lemma {:induction false} SnapshotCarries(st: State, next: State)
    requires JobsOk(st.jobs) && JobsOk(next.jobs) && next.jobs.Keys == st.jobs.Keys
    ensures |SnapshotJobs(next)| == |SnapshotJobs(st)|
    ensures forall i :: 0 <= i < |SnapshotJobs(st)| ==>
      SnapshotJobs(st)[i].id in next.jobs && SnapshotJobs(next)[i] == next.jobs[SnapshotJobs(st)[i].id]
  {
    hide JobOk, SnapshotJobs;
    SnapshotJobsOk(st);
    SnapshotJobsOk(next);
    SnapshotIsSorted(st);
    SnapshotIsSorted(next);
    var xs, ys := SnapshotJobs(st), SnapshotJobs(next);
    assert forall i :: 0 <= i < |xs| ==> xs[i] in xs && xs[i].id in next.jobs;
    var image := seq(|xs|, i requires 0 <= i < |xs| => next.jobs[xs[i].id]);
    assert Sorting.Sorted(JobIdBefore, image);
    forall y ensures y in ys <==> y in image {
      if y in ys {
        assert st.jobs[y.id] in xs;
        var i :| 0 <= i < |xs| && xs[i] == st.jobs[y.id];
        assert image[i] == y;
      }
    }
    assert Sorting.StrictTotalOn(JobIdBefore, ys);
    Sorting.SortedIsUnique(JobIdBefore, ys, image);
  }

  /** The planner gets the jobs by identifier. */
  lemma SnapshotIsSorted(st: State)
    requires JobsOk(st.jobs)
    ensures Sorting.Sorted(JobIdBefore, SnapshotJobs(st))
    ensures forall i, k :: 0 <= i < k < |SnapshotJobs(st)| ==> SnapshotJobs(st)[i].id < SnapshotJobs(st)[k].id
  {
    hide JobOk;
    SnapshotHasEverything(st);
    var all := Sorting.Elements(st.jobs.Values);
    forall x | x in st.jobs.Values ensures x.id in st.jobs && st.jobs[x.id] == x {
      var k := Sorting.KeyOf(st.jobs, x);
    }
    assert Sorting.StrictTotalOn(JobIdBefore, all);
    Sorting.SortSorts(JobIdBefore, all);
  }

  // ---------------------------------------------------------------- The second run

  /** Every placement of the plan starts later. */
  ghost predicate StartsLater(st: State, plans: seq<PlanEntry>, now: Time) {
    forall e :: e in plans && e.placement.Some? ==> e.jobId in st.jobs && st.jobs[e.jobId].RequestedWindow().start > now
  }

  /** The entries are exactly the candidates of the snapshot. */
  ghost predicate Covers(st: State, config: Config, now: Time, plans: seq<PlanEntry>) {
    && Claimable(st, now, plans)
    && (forall j :: j in SnapshotJobs(st) ==> (Candidate(config, now, j) <==> Planned(plans, j.id)))
  }

  lemma PlanCovers(st: State, config: Config, now: Time, plans: seq<PlanEntry>)
    requires Valid(st) && config.offlineAfter == st.offlineAfter
    requires PlanReservations(config, SnapshotJobs(st), SnapshotServers(st), now) == Ok(plans)
    ensures Covers(st, config, now, plans) && Replan(st, now, plans).Ok? && Sized(Queue(config, SnapshotJobs(st), now))
  {
    hide Valid, JobsOk, ServersOk, HostsOk, SnapshotJobs, SnapshotServers, Queue, PlanQueue, Fixed, AllStored, PlaceAll,
         NotPlanned, Claimable, Candidate, EntryFor, BookingsAt;
    ValidSnapshot(st);
    PlanIsAccepted(st, config, now);
    SnapshotQueueIsSized(st, config, now);
    QueueIsStored(st, config, now);
    var queue, servers, fixed := Queue(config, SnapshotJobs(st), now), SnapshotServers(st),
      Fixed(config, SnapshotJobs(st), now);
    PlanAt(config, queue, servers, fixed, now);
    forall i | 0 <= i < |queue| ensures plans[i].jobId == queue[i].id {
      assert queue[i] in queue;
      EntryAlwaysDecided(config, queue[i], servers, BookingsAt(config, queue, servers, fixed, now, i), now);
    }
    QueueIsClaimable(st, config, now, plans);
    forall j | j in SnapshotJobs(st) ensures Candidate(config, now, j) <==> Planned(plans, j.id) {
      if Candidate(config, now, j) {
        var k :| k in queue && k.id == j.id;
        var i :| 0 <= i < |queue| && queue[i] == k;
        assert plans[i] in plans;
      }
      if Planned(plans, j.id) {
        var e :| e in plans && e.jobId == j.id;
        var i :| 0 <= i < |plans| && plans[i] == e;
        assert queue[i] in queue;
      }
    }
  }

  ghost function Replanned(st: State, now: Time, plans: seq<PlanEntry>): State {
    Apply(st, ReplanStep(now, Ok(plans)))
  }

  lemma ReplannedIs(st: State, now: Time, plans: seq<PlanEntry>)
    requires Replan(st, now, plans).Ok?
    ensures Replanned(st, now, plans) == st.(jobs := st.jobs + Replan(st, now, plans).value.changed)
  {
    hide Replan;
  }

  lemma ReplanWrites(st: State, now: Time, plans: seq<PlanEntry>)
    requires Replan(st, now, plans).Ok?
    ensures Claimable(st, now, plans)
    ensures Replan(st, now, plans).value.changed.Keys == Ids(plans)
    ensures forall e :: e in plans ==>
      e.jobId in st.jobs && e.jobId in Ids(plans)
        && Replan(st, now, plans).value.changed[e.jobId] == PlacedJob(st.jobs[e.jobId], e, now)
  {
    hide PlaceAll, PlacedJob, Job.Replannable, NotPlanned, SnapshotServers;
    PlaceAllWrites(st, now, plans, SnapshotServers(st), Batch(map[], NotPlanned(SnapshotJobs(st), plans), 0));
  }

  lemma ReplannedJobs(st: State, now: Time, plans: seq<PlanEntry>)
    requires Claimable(st, now, plans) && Replan(st, now, plans).Ok?
    ensures var next := Replanned(st, now, plans);
      && next == st.(jobs := next.jobs) && next.jobs.Keys == st.jobs.Keys
      && (forall e :: e in plans ==> e.jobId in st.jobs && next.jobs[e.jobId] == PlacedJob(st.jobs[e.jobId], e, now))
      && (forall k :: k in st.jobs && !Planned(plans, k) ==> next.jobs[k] == st.jobs[k])
  {
    hide PlacedJob, Replan, Replanned, Claimable;
    ReplannedIs(st, now, plans);
    ReplanWrites(st, now, plans);
    var next := Replanned(st, now, plans);
    forall k ensures k in next.jobs.Keys <==> k in st.jobs.Keys {
    }
  }

  lemma JobCarries(st: State, config: Config, now: Time, plans: seq<PlanEntry>, j: Job)
    requires JobsOk(st.jobs) && Covers(st, config, now, plans) && Replan(st, now, plans).Ok?
      && StartsLater(st, plans, now)
    requires j in SnapshotJobs(st)
    ensures j.id in Replanned(st, now, plans).jobs
    ensures Carried(config, now, j, Replanned(st, now, plans).jobs[j.id])
  {
    hide PlacedJob, Candidate, Claimable, Replan, SnapshotJobs, JobOk, Replanned;
    SnapshotJobsOk(st);
    ReplannedJobs(st, now, plans);
    if Planned(plans, j.id) {
      var e :| e in plans && e.jobId == j.id;
      PlacedStaysCandidate(config, j, e, now);
      PlacedKeepsPolicy(j, e, now);
    }
  }

  lemma PlacedKeepsPolicy(job: Job, entry: PlanEntry, at: Time)
    ensures PlacedJob(job, entry, at).policy == entry.policy
  {
  }

  lemma SnapshotIsCarried(st: State, config: Config, now: Time, plans: seq<PlanEntry>)
    requires Valid(st) && Valid(Replanned(st, now, plans))
    requires Covers(st, config, now, plans) && Replan(st, now, plans).Ok? && StartsLater(st, plans, now)
    ensures AllCarried(config, now, SnapshotJobs(st), SnapshotJobs(Replanned(st, now, plans)))
    ensures SnapshotServers(Replanned(st, now, plans)) == SnapshotServers(st)
  {
    hide Valid, JobOk, Covers, Replan, StartsLater, SnapshotJobs, Carried, Replanned, ServersOk, Claimable, Planned,
         PlacedJob;
    ValidSnapshot(st);
    ValidSnapshot(Replanned(st, now, plans));
    CoversClaims(st, config, now, plans);
    ReplannedJobs(st, now, plans);
    SnapshotCarries(st, Replanned(st, now, plans));
    forall i | 0 <= i < |SnapshotJobs(st)|
      ensures Carried(config, now, SnapshotJobs(st)[i], SnapshotJobs(Replanned(st, now, plans))[i])
    {
      JobCarries(st, config, now, plans, SnapshotJobs(st)[i]);
    }
  }

  lemma CoversClaims(st: State, config: Config, now: Time, plans: seq<PlanEntry>)
    requires Covers(st, config, now, plans)
    ensures Claimable(st, now, plans)
  {
  }

  lemma SecondPlanIsSame(st: State, config: Config, now: Time, plans: seq<PlanEntry>)
    requires Valid(st) && config.offlineAfter == st.offlineAfter
    requires PlanReservations(config, SnapshotJobs(st), SnapshotServers(st), now) == Ok(plans)
    requires StartsLater(st, plans, now)
    ensures Valid(Replanned(st, now, plans)) && Covers(st, config, now, plans) && Replan(st, now, plans).Ok?
    ensures var next := Replanned(st, now, plans);
      PlanReservations(config, SnapshotJobs(next), SnapshotServers(next), now) == Ok(plans)
  {
    hide Valid, SnapshotJobs, SnapshotServers, PlanQueue, Fixed, Candidates, Covers, Replan, StartsLater, AllAlike,
         AllCarried, SameBookings,
         Apply, Sized, Progress, Replanned;
    PlanCovers(st, config, now, plans);
    ReplannedIsValid(st, now, plans);
    var next := Replanned(st, now, plans);
    SnapshotIsCarried(st, config, now, plans);
    var xs, ys := SnapshotJobs(st), SnapshotJobs(next);
    CarriedSplit(config, now, xs, ys);
    SortAlike(Policy.EvaluateAll(Candidates(config, xs, now), config.facts, now),
              Policy.EvaluateAll(Candidates(config, ys, now), config.facts, now));
    SameBookingsAsBefore(Fixed(config, xs, now));
    QueueReads(config, Queue(config, xs, now), Queue(config, ys, now), SnapshotServers(st),
               Fixed(config, xs, now), Fixed(config, ys, now), now);
  }

  lemma ReplannedIsValid(st: State, now: Time, plans: seq<PlanEntry>)
    requires Valid(st)
    ensures Valid(Replanned(st, now, plans))
  {
    hide Valid, Progress, Apply;
    ReplanKeepsValid(st, now, Ok(plans));
  }

  lemma WritesNothing(jobs: map<Id, Job>, changed: map<Id, Job>)
    requires forall k :: k in changed ==> k in jobs && changed[k] == jobs[k]
    ensures jobs + changed == jobs
  {
    var both := jobs + changed;
    assert forall k :: k in changed ==> k in jobs;
    assert forall k :: k in both <==> k in jobs;
    assert forall k :: k in jobs ==> both[k] == jobs[k];
    assert both == jobs;
  }

  /** When every placed window starts later than `now`, a second planner run at the same `now` moves no job and leaves
      every job exactly as it was. */
  lemma ReplanningIsIdempotent(st: State, config: Config, now: Time, plans: seq<PlanEntry>)
    requires Valid(st) && config.offlineAfter == st.offlineAfter
    requires PlanReservations(config, SnapshotJobs(st), SnapshotServers(st), now) == Ok(plans)
    requires StartsLater(st, plans, now)
    ensures var next := Replanned(st, now, plans);
      var again := PlanReservations(config, SnapshotJobs(next), SnapshotServers(next), now);
      && again == Ok(plans)
      && Replan(next, now, plans).Ok? && Replan(next, now, plans).value.count == 0
      && Replanned(next, now, plans) == next
  {
    hide Valid, SnapshotJobs, SnapshotServers, PlanReservations, Covers, Replan, StartsLater, Replanned, Claimable,
         PlacedJob;
    SecondPlanIsSame(st, config, now, plans);
    var next := Replanned(st, now, plans);
    CoversClaims(st, config, now, plans);
    ReplannedJobs(st, now, plans);
    SameOfflineAfter(st, now, plans);
    PlanCovers(next, config, now, plans);
    CoversClaims(next, config, now, plans);
    ReplannedJobs(next, now, plans);
    ClaimedAreLive(st, now, plans);
    forall e | e in plans
      ensures Replanned(next, now, plans).jobs[e.jobId] == next.jobs[e.jobId]
      ensures e.placement.Some? ==> SamePlace(next.jobs[e.jobId].assignment, e.placement.value)
    {
      PlacingTwice(st.jobs[e.jobId], e, now);
    }
    forall k | k in next.jobs ensures Replanned(next, now, plans).jobs[k] == next.jobs[k] {
      if Planned(plans, k) {
        var e :| e in plans && e.jobId == k;
      }
    }
    WritesNothing(next.jobs, Replanned(next, now, plans).jobs);
    assert Replanned(next, now, plans).jobs == next.jobs;
    SecondCount(next, now, plans);
  }

  lemma SameOfflineAfter(st: State, now: Time, plans: seq<PlanEntry>)
    ensures Replanned(st, now, plans).offlineAfter == st.offlineAfter
  {
    hide Replan;
  }

  lemma ClaimedAreLive(st: State, now: Time, plans: seq<PlanEntry>)
    requires Claimable(st, now, plans)
    ensures forall e :: e in plans ==> e.jobId in st.jobs && !st.jobs[e.jobId].status.Terminal()
  {
  }

  lemma SecondCount(st: State, now: Time, plans: seq<PlanEntry>)
    requires Replan(st, now, plans).Ok? && NothingMoves(st, plans)
    ensures Replan(st, now, plans).value.count == 0
  {
    hide Replan, Moved;
    ReplanCountsMoves(st, now, plans);
    Sorting.FilterNone((e: PlanEntry) => Moved(st, e), plans);
  }
}
