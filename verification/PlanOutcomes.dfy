/** Whom a plan decides about, in which order, and which place it picks. */
module PlanOutcomes {
  import opened Domain
  import opened Calendar
  import opened StoreSpec
  import opened StoreSteps
  import opened Planner
  import opened PlannerAgreement
  import opened PlannerFairness
  import R = ReplanOutcomes
  import Policy
  import Scheduler
  import Sorting

  // ---------------------------------------------------------------- Whom, and in which order

  /** Jobs in the caller's scope: everybody's, or those of one organisation. */
  predicate InScope(scope: Scope, job: Job) {
    scope.Everything? || (scope.org == job.org && job.org != NO_ID)
  }

  lemma CandidateMeans(config: Config, now: Time, job: Job)
    ensures Candidate(config, now, job) <==> InScope(config.scope, job) && R.MayMove(job, now)
  {
    R.MoveMeans(job, now);
  }

  /** The queue holds every job in scope that may move, evaluated now, and no other. */
  lemma QueueMembers(st: State, config: Config, now: Time, id: Id)
    requires JobsOk(st.jobs)
    ensures var queue := Queue(config, SnapshotJobs(st), now);
      (exists i :: 0 <= i < |queue| && queue[i].id == id)
      <==> id in st.jobs && InScope(config.scope, st.jobs[id]) && R.MayMove(st.jobs[id], now)
    ensures forall j :: j in Queue(config, SnapshotJobs(st), now) ==>
      j.id in st.jobs && j == Policy.Evaluated(st.jobs[j.id], config.facts, now)
  {
    hide JobOk, SnapshotJobs, Candidate, Policy.Ordered, Policy.Before, Policy.Decide, R.MayMove, InScope;
    var jobs := SnapshotJobs(st);
    SnapshotJobsOk(st);
    var candidates, queue := Candidates(config, jobs, now), Queue(config, jobs, now);
    Sorting.FilterMembers((j: Job) => Candidate(config, now, j), jobs);
    CandidatesDistinct(config, jobs, now);
    Policy.OrderedIsSorted(candidates, config.facts, now);
    forall j | j in queue ensures j.id in st.jobs && j == Policy.Evaluated(st.jobs[j.id], config.facts, now) {
      var c :| c in candidates && j == Policy.Evaluated(c, config.facts, now);
    }
    if i :| 0 <= i < |queue| && queue[i].id == id {
      assert queue[i] in queue;
      var c :| c in candidates && queue[i] == Policy.Evaluated(c, config.facts, now);
      CandidateMeans(config, now, c);
    }
    if id in st.jobs && InScope(config.scope, st.jobs[id]) && R.MayMove(st.jobs[id], now) {
      CandidateMeans(config, now, st.jobs[id]);
      JobNamed(st, id);
      assert st.jobs[id] in candidates;
      var j := Policy.Evaluated(st.jobs[id], config.facts, now);
      assert j in queue && j.id == id;
    }
  }

  lemma JobNamed(st: State, id: Id)
    requires JobsOk(st.jobs) && id in st.jobs
    ensures st.jobs[id].id == id
  {
  }

  /** `a`, evaluated as `p`, is served before `b`, evaluated as `q`. */
  predicate ServedBefore(a: Job, p: Decision, b: Job, q: Decision) {
    && (q.lane == AutoEligible ==> p.lane == AutoEligible)
    && (p.lane == q.lane ==> !Policy.Sooner(b.necessity, a.necessity))
    && (p.lane == q.lane && a.necessity == b.necessity ==>
          || p.score > q.score
          || (p.score == q.score && a.createdAt < b.createdAt)
          || (p.score == q.score && a.createdAt == b.createdAt && a.id < b.id))
  }

  /** The entries of a plan are those of the queue, one for each job, in its order. */
  lemma EntriesFollowQueue(st: State, config: Config, now: Time)
    requires Valid(st)
    ensures var queue := Queue(config, SnapshotJobs(st), now);
      var plan := PlanReservations(config, SnapshotJobs(st), SnapshotServers(st), now);
      && plan.Ok? && |plan.value| == |queue| && Policy.DistinctJobs(queue)
      && forall i :: 0 <= i < |queue| ==>
           plan.value[i].jobId == queue[i].id && plan.value[i].policy == queue[i].policy
  {
    hide Valid, SnapshotJobs, SnapshotServers, Queue, Fixed, PlanQueue, BookingsAt, EntryFor, JobsOk, ServersOk;
    ValidSnapshot(st);
    SnapshotQueueIsSized(st, config, now);
    QueueIsSized(config, SnapshotJobs(st), now);
    var queue, servers := Queue(config, SnapshotJobs(st), now), SnapshotServers(st);
    var fixed := Fixed(config, SnapshotJobs(st), now);
    PlanAt(config, queue, servers, fixed, now);
    forall i | 0 <= i < |queue|
      ensures PlanQueue(config, queue, servers, fixed, now).value[i].jobId == queue[i].id
      ensures PlanQueue(config, queue, servers, fixed, now).value[i].policy == queue[i].policy
    {
      assert queue[i] in queue;
      EntryAlwaysDecided(config, queue[i], servers, BookingsAt(config, queue, servers, fixed, now, i), now);
    }
  }

  /** A plan decides about every job in scope that may move, once, and about no other. */
  lemma PlanCovers(st: State, config: Config, now: Time)
    requires Valid(st)
    ensures var plan := PlanReservations(config, SnapshotJobs(st), SnapshotServers(st), now);
      && plan.Ok?
      && (forall i, k :: 0 <= i < k < |plan.value| ==> plan.value[i].jobId != plan.value[k].jobId)
      && forall id ::
           (exists i :: 0 <= i < |plan.value| && plan.value[i].jobId == id)
           <==> id in st.jobs && InScope(config.scope, st.jobs[id]) && R.MayMove(st.jobs[id], now)
  {
    hide Valid, SnapshotJobs, SnapshotServers, Queue, PlanReservations, JobsOk, InScope, R.MayMove;
    ValidSnapshot(st);
    EntriesFollowQueue(st, config, now);
    var queue := Queue(config, SnapshotJobs(st), now);
    var plan := PlanReservations(config, SnapshotJobs(st), SnapshotServers(st), now).value;
    forall id
      ensures (exists i :: 0 <= i < |plan| && plan[i].jobId == id)
         <==> id in st.jobs && InScope(config.scope, st.jobs[id]) && R.MayMove(st.jobs[id], now)
    {
      QueueMembers(st, config, now, id);
    }
  }

  /** Of two jobs the plan decides first about the one the policy ranks first, and each entry carries the ranking of its
      job. */
  lemma PlanIsRanked(st: State, config: Config, now: Time, i: nat, k: nat)
    requires Valid(st)
    requires var plan := PlanReservations(config, SnapshotJobs(st), SnapshotServers(st), now);
      plan.Ok? && i < k < |plan.value|
    ensures var plan := PlanReservations(config, SnapshotJobs(st), SnapshotServers(st), now).value;
      && plan[i].jobId in st.jobs && plan[k].jobId in st.jobs
      && var a, b := st.jobs[plan[i].jobId], st.jobs[plan[k].jobId];
         && plan[i].policy == Policy.Decide(a, config.facts, now)
         && plan[k].policy == Policy.Decide(b, config.facts, now)
         && ServedBefore(a, plan[i].policy, b, plan[k].policy)
  {
    hide Valid, SnapshotJobs, SnapshotServers, Queue, PlanReservations, JobsOk, Policy.Decide;
    ValidSnapshot(st);
    EntriesFollowQueue(st, config, now);
    var queue := Queue(config, SnapshotJobs(st), now);
    QueueMembers(st, config, now, queue[i].id);
    assert queue[i] in queue && queue[k] in queue;
    QueueIsRanked(st, config, now, i, k);
  }

  lemma QueueIsRanked(st: State, config: Config, now: Time, i: nat, k: nat)
    requires JobsOk(st.jobs) && i < k < |Queue(config, SnapshotJobs(st), now)|
    ensures var queue := Queue(config, SnapshotJobs(st), now);
      ServedBefore(queue[i], queue[i].policy, queue[k], queue[k].policy)
  {
    hide JobsOk, SnapshotJobs, Candidate, Policy.Ordered, Policy.Score;
    SnapshotJobsOk(st);
    CandidatesDistinct(config, SnapshotJobs(st), now);
    Policy.ScoreNeverOverrides(Candidates(config, SnapshotJobs(st), now), config.facts, now, i, k);
  }

  // ---------------------------------------------------------------- Which place

  /** A placed job gets the best offer among the hosts projected into its window, by the configured strategy, and there
      the least of the GPUs that serve it. */
  lemma EntryPlaces(config: Config, job: Job, servers: seq<Server>, bookings: seq<Job>, now: Time)
    requires HostsOk(servers) && job.resources.gpuCount > 0
    requires EntryFor(config, job, servers, bookings, now).Ok?
    requires EntryFor(config, job, servers, bookings, now).value.placement.Some?
    ensures var p := EntryFor(config, job, servers, bookings, now).value.placement.value;
      var hosts := CalendarServers(job, servers, bookings, now, config.offlineAfter);
      && p.strategy == config.strategy && p.policy == job.policy
      && Scheduler.LeastOffer(config.strategy, job, hosts, now, config.offlineAfter, p)
      && |p.gpus| == job.resources.gpuCount && DistinctIds(p.gpus)
      && exists s :: s in hosts && s.id == p.serverId && Scheduler.TakesLeast(job, s, p.gpus)
  {
    hide EntryFor, CalendarServers, Scheduler.Plan, Scheduler.TakesLeast, Scheduler.CandidateOf, Scheduler.Fits,
         ServerOk, DistinctIds, DistinctUUIDs;
    var hosts := CalendarServers(job, servers, bookings, now, config.offlineAfter);
    PlacedEntry(config, job, servers, bookings, now);
    CalendarOffers(job, servers, bookings, now, config.offlineAfter);
    Scheduler.PlanIsLeast(config.strategy, job, hosts, now, config.offlineAfter);
    Scheduler.PlanTakesLeast(config.strategy, job, hosts, now, config.offlineAfter);
  }
}
