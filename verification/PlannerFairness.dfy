/** Who can influence whose plan: later-ranked jobs and other organisations cannot, and nobody waits in vain. */
module PlannerFairness {
  import opened Domain
  import opened Calendar
  import opened StoreSpec
  import opened StoreSteps
  import opened Planner
  import opened PlannerAgreement
  import opened StepOutcomes
  import Policy
  import Scheduler
  import Sorting

  ghost predicate Sized(jobs: seq<Job>) {
    forall j :: j in jobs ==> j.resources.gpuCount > 0
  }

  // ---------------------------------------------------------------- The plan of a queue

  /** The bookings the planner has in hand when it reaches position `i`. */
  ghost function BookingsAt(config: Config, queue: seq<Job>, servers: seq<Server>, bookings: seq<Job>, now: Time,
                            i: nat): seq<Job>
    requires i <= |queue|
  {
    if i == 0 then bookings
    else
      match EntryFor(config, queue[0], servers, bookings, now)
      case Err(_) => bookings
      case Ok(entry) => BookingsAt(config, queue[1..], servers, WithHeld(bookings, queue[0], entry), now, i - 1)
  }

  lemma {:induction false} PlanAt(config: Config, queue: seq<Job>, servers: seq<Server>, bookings: seq<Job>, now: Time)
    requires Sized(queue)
    ensures PlanQueue(config, queue, servers, bookings, now).Ok?
      && |PlanQueue(config, queue, servers, bookings, now).value| == |queue|
    ensures forall i :: 0 <= i < |queue| ==>
      Ok(PlanQueue(config, queue, servers, bookings, now).value[i])
        == EntryFor(config, queue[i], servers, BookingsAt(config, queue, servers, bookings, now, i), now)
    decreases |queue|
  {
    hide EntryFor, WithHeld;
    if queue != [] {
      assert queue[0] in queue && forall j :: j in queue[1..] ==> j in queue;
      EntryAlwaysDecided(config, queue[0], servers, bookings, now);
      var entry := EntryFor(config, queue[0], servers, bookings, now).value;
      var more := WithHeld(bookings, queue[0], entry);
      PlanAt(config, queue[1..], servers, more, now);
      var rest := PlanQueue(config, queue[1..], servers, more, now).value;
      forall i | 0 <= i < |queue|
        ensures Ok(([entry] + rest)[i])
          == EntryFor(config, queue[i], servers, BookingsAt(config, queue, servers, bookings, now, i), now)
      {
        if i > 0 {
          assert queue[i] == queue[1..][i - 1];
        }
      }
    }
  }

  // ---------------------------------------------------------------- Priority

  lemma {:induction false} PrefixIsIndependent(config: Config, xs: seq<Job>, zs: seq<Job>, servers: seq<Server>,
                                               bookings: seq<Job>, now: Time)
    requires Sized(xs) && Sized(xs + zs)
    ensures PlanQueue(config, xs + zs, servers, bookings, now).Ok? && PlanQueue(config, xs, servers, bookings, now).Ok?
    ensures PlanQueue(config, xs, servers, bookings, now).value
      <= PlanQueue(config, xs + zs, servers, bookings, now).value
    ensures |PlanQueue(config, xs, servers, bookings, now).value| == |xs|
    decreases |xs|
  {
    hide EntryFor, WithHeld;
    PlanAt(config, xs, servers, bookings, now);
    PlanAt(config, xs + zs, servers, bookings, now);
    if xs != [] {
      assert (xs + zs)[1..] == xs[1..] + zs && (xs + zs)[0] == xs[0];
      assert xs[0] in xs && (forall j :: j in xs[1..] ==> j in xs) && (forall j :: j in xs[1..] + zs ==> j in xs + zs);
      EntryAlwaysDecided(config, xs[0], servers, bookings, now);
      var entry := EntryFor(config, xs[0], servers, bookings, now).value;
      PrefixIsIndependent(config, xs[1..], zs, servers, WithHeld(bookings, xs[0], entry), now);
    }
  }

  lemma {:induction false} WithoutOne(queue: seq<Job>, k: nat)
    requires Policy.DistinctJobs(queue) && k < |queue|
    ensures Sorting.Filter((j: Job) => j.id != queue[k].id, queue) == queue[..k] + queue[k + 1..]
    decreases k
  {
    var keep := (j: Job) => j.id != queue[k].id;
    if k == 0 {
      Sorting.FilterAll(keep, queue[1..]);
    } else {
      WithoutOne(queue[1..], k - 1);
      assert queue[1..][k - 1] == queue[k];
      Sorting.FilterSame(keep, (j: Job) => j.id != queue[1..][k - 1].id, queue[1..]);
      assert queue[1..][..k - 1] == queue[1..k] && queue[1..][k..] == queue[k + 1..];
      assert queue[..k] == [queue[0]] + queue[1..k];
    }
  }

  lemma QueueWithout(config: Config, jobs: seq<Job>, now: Time, late: Id)
    requires Policy.DistinctJobs(jobs)
    ensures Queue(config, Sorting.Filter((j: Job) => j.id != late, jobs), now)
         == Sorting.Filter((j: Job) => j.id != late, Queue(config, jobs, now))
  {
    hide Candidate, Policy.Ordered, Policy.Before;
    var keep := (j: Job) => j.id != late;
    Sorting.FilterTwice((j: Job) => Candidate(config, now, j), keep, jobs);
    CandidatesDistinct(config, jobs, now);
    Policy.OrderedFilter(keep, Candidates(config, jobs, now), config.facts, now);
  }

  lemma FixedWithout(config: Config, jobs: seq<Job>, now: Time, late: Id)
    requires forall j :: j in jobs && j.id == late ==> Candidate(config, now, j)
    ensures Fixed(config, Sorting.Filter((j: Job) => j.id != late, jobs), now) == Fixed(config, jobs, now)
  {
    hide Candidate;
    var keep := (j: Job) => j.id != late;
    Sorting.FilterTwice((j: Job) => !Candidate(config, now, j), keep, jobs);
    Sorting.FilterMembers((j: Job) => !Candidate(config, now, j), jobs);
    Sorting.FilterAll(keep, Fixed(config, jobs, now));
  }

  lemma QueueIsSized(config: Config, jobs: seq<Job>, now: Time)
    requires Sized(jobs) && Policy.DistinctJobs(jobs)
    ensures Sized(Queue(config, jobs, now)) && Policy.DistinctJobs(Queue(config, jobs, now))
  {
    hide Candidate, Policy.Ordered, Policy.Before, Policy.Decide;
    var candidates := Candidates(config, jobs, now);
    Sorting.FilterMembers((j: Job) => Candidate(config, now, j), jobs);
    CandidatesDistinct(config, jobs, now);
    Policy.OrderedIsSorted(candidates, config.facts, now);
    QueueDistinct(candidates, config.facts, now);
  }

  /** Adding or removing a job changes no decision about the jobs ranked before it. */
  lemma PriorityNonInterference(config: Config, jobs: seq<Job>, servers: seq<Server>, now: Time, k: nat)
    requires Policy.DistinctJobs(jobs) && Sized(jobs) && k < |Queue(config, jobs, now)|
    ensures var late := Queue(config, jobs, now)[k].id;
      var plan := PlanReservations(config, jobs, servers, now);
      var without := PlanReservations(config, Sorting.Filter((j: Job) => j.id != late, jobs), servers, now);
      && plan.Ok? && without.Ok? && |plan.value| == |without.value| + 1 && k <= |without.value|
      && plan.value[..k] == without.value[..k]
  {
    hide Queue, Fixed, PlanQueue, Candidate;
    var queue, fixed := Queue(config, jobs, now), Fixed(config, jobs, now);
    var late := queue[k].id;
    QueueIsSized(config, jobs, now);
    LateIsCandidate(config, jobs, now, k);
    QueueWithout(config, jobs, now, late);
    FixedWithout(config, jobs, now, late);
    WithoutOne(queue, k);
    var xs := queue[..k];
    assert queue == xs + queue[k..];
    assert forall j :: j in xs + queue[k + 1..] ==> j in queue;
    PrefixIsIndependent(config, xs, queue[k..], servers, fixed, now);
    PrefixIsIndependent(config, xs, queue[k + 1..], servers, fixed, now);
    PlanAt(config, queue, servers, fixed, now);
    PlanAt(config, xs + queue[k + 1..], servers, fixed, now);
  }

  lemma LateIsCandidate(config: Config, jobs: seq<Job>, now: Time, k: nat)
    requires Policy.DistinctJobs(jobs) && k < |Queue(config, jobs, now)|
    ensures forall j :: j in jobs && j.id == Queue(config, jobs, now)[k].id ==> Candidate(config, now, j)
  {
    hide Candidate, Policy.Ordered, Policy.Before, Policy.Decide;
    var candidates, late := Candidates(config, jobs, now), Queue(config, jobs, now)[k];
    Sorting.FilterMembers((j: Job) => Candidate(config, now, j), jobs);
    CandidatesDistinct(config, jobs, now);
    Policy.OrderedIsSorted(candidates, config.facts, now);
    assert late in Queue(config, jobs, now);
    var c :| c in candidates && late == Policy.Evaluated(c, config.facts, now);
    forall j | j in jobs && j.id == late.id ensures Candidate(config, now, j) {
      var a :| 0 <= a < |jobs| && jobs[a] == j;
      var b :| 0 <= b < |jobs| && jobs[b] == c;
    }
  }

  // ---------------------------------------------------------------- Nobody waits in vain

  ghost function OpenGPUs(job: Job, server: Server, bookings: seq<Job>, now: Time): seq<GPU> {
    Sorting.Filter((g: GPU) => OpenFor(job, server.id, g, bookings, now), server.gpus)
  }

  /** Some host of the job's organisation can be trusted now and has enough GPUs open for the whole window. */
  ghost predicate HasRoom(config: Config, job: Job, servers: seq<Server>, bookings: seq<Job>, now: Time) {
    exists s :: s in servers && HostReady(s, now, config.offlineAfter) && job.org == s.org != NO_ID
      && |OpenGPUs(job, s, bookings, now)| >= job.resources.gpuCount
  }

  /** The job asks for a window that has not passed and its organisation may be served. */
  predicate Servable(config: Config, job: Job, now: Time) {
    EndOf(job).Some? && now < EndOf(job).value && (config.enabled.Some? ==> job.org in config.enabled.value)
  }

  lemma EligibleMeans(job: Job, s: Server, now: Time, offlineAfter: int)
    ensures Eligible(job, s, now, offlineAfter) <==> HostReady(s, now, offlineAfter) && job.org == s.org != NO_ID
  {
  }

  lemma {:induction false} UsableIsOpen(job: Job, sid: Id, gpus: seq<GPU>, projected: seq<GPU>, bookings: seq<Job>,
                                        now: Time)
    requires |projected| == |gpus|
      && forall i :: 0 <= i < |gpus| ==> projected[i] == ProjectGPU(job, sid, gpus[i], bookings, now)
    requires forall g :: g in gpus ==> SoundGPU(g)
    ensures |Scheduler.Usable(job.resources, projected)|
      == |Sorting.Filter((g: GPU) => OpenFor(job, sid, g, bookings, now), gpus)|
  {
    hide ProjectGPU, OpenFor, Resources.Matches;
    if gpus != [] {
      assert gpus[0] in gpus && forall g :: g in gpus[1..] ==> g in gpus;
      OpenExactly(job, sid, gpus[0], bookings, now);
      UsableIsOpen(job, sid, gpus[1..], projected[1..], bookings, now);
    }
  }

  lemma FitsExactly(config: Config, job: Job, s: Server, bookings: seq<Job>, now: Time)
    requires ServerOk(s)
    ensures Scheduler.Fits(job, ProjectServer(job, s, bookings, now), now, config.offlineAfter)
       <==> Eligible(job, s, now, config.offlineAfter) && |OpenGPUs(job, s, bookings, now)| >= job.resources.gpuCount
  {
    hide ProjectGPU, OpenFor, Resources.Matches, DistinctUUIDs;
    var p := ProjectServer(job, s, bookings, now);
    UsableIsOpen(job, s.id, s.gpus, p.gpus, bookings, now);
    Sorting.SortPermutes(Scheduler.GPUBefore, Scheduler.Usable(job.resources, p.gpus));
    ScheduleReads(s, p, now, config.offlineAfter);
  }

  lemma RoomExactly(config: Config, job: Job, servers: seq<Server>, bookings: seq<Job>, now: Time)
    requires HostsOk(servers) && job.resources.gpuCount > 0 && job.RequestedWindow().Valid()
    ensures Scheduler.Plan(config.strategy, job, CalendarServers(job, servers, bookings, now, config.offlineAfter),
                           now, config.offlineAfter).Ok?
       <==> HasRoom(config, job, servers, bookings, now)
  {
    hide HostReady, Scheduler.Plan, Scheduler.Fits, Eligible, ProjectServer, OpenGPUs, ServerOk, TimeWindow.Valid,
         Job.RequestedWindow, ProjectAll;
    var off := config.offlineAfter;
    var cs := CalendarServers(job, servers, bookings, now, off);
    CalendarOffers(job, servers, bookings, now, off);
    ProjectAllMembers(job, servers, bookings, now, off);
    Scheduler.PlanIsOptimal(config.strategy, job, cs, now, off);
    forall s | s in servers && Eligible(job, s, now, off)
      ensures ProjectServer(job, s, bookings, now) in cs
      ensures Scheduler.Fits(job, ProjectServer(job, s, bookings, now), now, off)
        <==> |OpenGPUs(job, s, bookings, now)| >= job.resources.gpuCount
    {
      FitsExactly(config, job, s, bookings, now);
    }
    forall s | s in servers
      ensures Eligible(job, s, now, off) <==> HostReady(s, now, off) && job.org == s.org != NO_ID
    {
      EligibleMeans(job, s, now, off);
    }
  }

  /** A job is placed exactly when it can be served and some host has room, and waits exactly when no host has;
      otherwise the reason says what is missing. */
  lemma NoFalseWaiting(config: Config, job: Job, servers: seq<Server>, bookings: seq<Job>, now: Time)
    requires HostsOk(servers) && job.resources.gpuCount > 0
    ensures EntryFor(config, job, servers, bookings, now).Ok?
    ensures var entry := EntryFor(config, job, servers, bookings, now).value;
      && entry.jobId == job.id && entry.policy == job.policy
      && (entry.placement.Some? <==> Servable(config, job, now) && HasRoom(config, job, servers, bookings, now))
      && entry.reason ==
           if EndOf(job).None? then LegacyWindow
           else if EndOf(job).value <= now then WindowEnded
           else if config.enabled.Some? && job.org !in config.enabled.value then OrganizationDisabled
           else if HasRoom(config, job, servers, bookings, now) then HeldForWindow else WaitingForWindow
  {
    hide Scheduler.Plan, CalendarServers, HasRoom, HostsOk, EndOf, Job.RequestedWindow;
    EntryAlwaysDecided(config, job, servers, bookings, now);
    WindowMeans(job);
    if job.RequestedWindow().Valid() {
      RoomExactly(config, job, servers, bookings, now);
    }
  }

  /** The same for every position of a plan made on a repository snapshot, against the bookings in hand there. */
  lemma EveryDecisionIsJust(st: State, config: Config, now: Time, i: nat)
    requires Valid(st) && i < |Queue(config, SnapshotJobs(st), now)|
    ensures var queue, servers := Queue(config, SnapshotJobs(st), now), SnapshotServers(st);
      var plan := PlanReservations(config, SnapshotJobs(st), servers, now);
      var bookings := BookingsAt(config, queue, servers, Fixed(config, SnapshotJobs(st), now), now, i);
      && plan.Ok? && |plan.value| == |queue| && plan.value[i].jobId == queue[i].id
      && (plan.value[i].placement.Some?
          <==> Servable(config, queue[i], now) && HasRoom(config, queue[i], servers, bookings, now))
      && (plan.value[i].reason == WaitingForWindow <==>
            (Servable(config, queue[i], now) && !HasRoom(config, queue[i], servers, bookings, now)))
  {
    hide Valid, SnapshotJobs, SnapshotServers, Queue, Fixed, PlanQueue, BookingsAt, EntryFor, HasRoom, EndOf,
         HostsOk, JobsOk, ServersOk;
    ValidSnapshot(st);
    SnapshotHostsOk(st);
    SnapshotQueueIsSized(st, config, now);
    var queue, servers := Queue(config, SnapshotJobs(st), now), SnapshotServers(st);
    var fixed := Fixed(config, SnapshotJobs(st), now);
    PlanAt(config, queue, servers, fixed, now);
    var bookings := BookingsAt(config, queue, servers, fixed, now, i);
    assert queue[i] in queue;
    EntryAlwaysDecided(config, queue[i], servers, bookings, now);
    NoFalseWaiting(config, queue[i], servers, bookings, now);
  }

  lemma SnapshotQueueIsSized(st: State, config: Config, now: Time)
    requires JobsOk(st.jobs)
    ensures Sized(Queue(config, SnapshotJobs(st), now)) && Sized(SnapshotJobs(st))
      && Policy.DistinctJobs(SnapshotJobs(st))
  {
    hide SnapshotJobs, Queue;
    SnapshotJobsOk(st);
    QueueIsSized(config, SnapshotJobs(st), now);
  }
}
