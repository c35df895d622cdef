/** The greedy reservation planner: policy order, calendar projection, placement, booking, one job after another. */
module Planner {
  import opened Domain
  import opened Calendar
  import Policy
  import Scheduler
  import Sorting

  /** Whose jobs a caller may plan. The background worker plans everybody's. */
  datatype Scope = Everything | Only(org: Id) {
    predicate Sees(job: Job) {
      Everything? || SameOrganization(org, job.org)
    }
  }

  /** `enabled` is absent when no organisation directory is connected. */
  datatype Config = Config(strategy: Strategy, offlineAfter: int, facts: Policy.Facts, enabled: Option<set<Id>>,
                           scope: Scope)

  predicate Candidate(config: Config, now: Time, job: Job) {
    config.scope.Sees(job) && job.Replannable(now)
  }

  function Candidates(config: Config, jobs: seq<Job>, now: Time): seq<Job> {
    Sorting.Filter((j: Job) => Candidate(config, now, j), jobs)
  }

  /** Jobs that keep their booking, and so constrain everybody else. */
  function Fixed(config: Config, jobs: seq<Job>, now: Time): seq<Job> {
    Sorting.Filter((j: Job) => !Candidate(config, now, j), jobs)
  }

  function Queue(config: Config, jobs: seq<Job>, now: Time): seq<Job> {
    Policy.Ordered(Candidates(config, jobs, now), config.facts, now)
  }

  predicate Disabled(config: Config, job: Job) {
    config.enabled.Some? && job.org !in config.enabled.value
  }

  /** One evaluated job against the bookings so far. */
  function EntryFor(config: Config, job: Job, servers: seq<Server>, bookings: seq<Job>, now: Time): Result<PlanEntry> {
    var window := job.RequestedWindow();
    if !window.Valid() then Ok(PlanEntry(job.id, None, job.policy, LegacyWindow))
    else if now >= window.end then Ok(PlanEntry(job.id, None, job.policy, WindowEnded))
    else if Disabled(config, job) then Ok(PlanEntry(job.id, None, job.policy, OrganizationDisabled))
    else
      match Scheduler.Plan(config.strategy, job, CalendarServers(job, servers, bookings, now, config.offlineAfter),
                           now, config.offlineAfter)
      case Ok(p) => Ok(PlanEntry(job.id, Some(p.(policy := job.policy)), job.policy, HeldForWindow))
      case Err(e) => if e == InsufficientGPU then Ok(PlanEntry(job.id, None, job.policy, WaitingForWindow)) else Err(e)
  }

  /** The tentative booking later jobs see. Only its place and window matter. */
  function Held(job: Job, p: Placement): Job {
    var window := job.RequestedWindow();
    job.(assignment := Some(Assignment(window.start, window.end, p.serverId, p.gpus, NO_ID, ZERO_TIME, PlannedState,
                                       None, p.strategy, p.score, HeldForWindow)))
  }

  function WithHeld(bookings: seq<Job>, job: Job, entry: PlanEntry): seq<Job> {
    match entry.placement
    case Some(p) => bookings + [Held(job, p)]
    case None => bookings
  }

  function PlanQueue(config: Config, queue: seq<Job>, servers: seq<Server>, bookings: seq<Job>,
                     now: Time): Result<seq<PlanEntry>> {
    if queue == [] then Ok([])
    else
      match EntryFor(config, queue[0], servers, bookings, now)
      case Err(e) => Err(e)
      case Ok(entry) =>
        match PlanQueue(config, queue[1..], servers, WithHeld(bookings, queue[0], entry), now)
        case Err(e) => Err(e)
        case Ok(rest) => Ok([entry] + rest)
  }

  function PlanReservations(config: Config, jobs: seq<Job>, servers: seq<Server>, now: Time): Result<seq<PlanEntry>> {
    PlanQueue(config, Queue(config, jobs, now), servers, Fixed(config, jobs, now), now)
  }

  // ---------------------------------------------------------------- The planning loop

  method Split(config: Config, jobs: seq<Job>, now: Time) returns (candidates: seq<Job>, bookings: seq<Job>)
    requires Policy.DistinctJobs(jobs)
    ensures candidates == Candidates(config, jobs, now) && bookings == Fixed(config, jobs, now)
  {
    candidates, bookings := [], [];
    var ids: set<Id> := {};
    ghost var keep, rest := (j: Job) => Candidate(config, now, j), (j: Job) => !Candidate(config, now, j);
    for i := 0 to |jobs|
      invariant candidates == Sorting.Filter(keep, jobs[..i])
      invariant forall k :: 0 <= k < i ==> (jobs[k].id in ids <==> Candidate(config, now, jobs[k]))
      invariant forall k :: i <= k < |jobs| ==> jobs[k].id !in ids
    {
      assert jobs[..i + 1] == jobs[..i] + [jobs[i]];
      Sorting.FilterAppend(keep, jobs[..i], [jobs[i]]);
      if config.scope.Sees(jobs[i]) && jobs[i].Replannable(now) {
        candidates := candidates + [jobs[i]];
        ids := ids + {jobs[i].id};
      }
    }
    for i := 0 to |jobs|
      invariant bookings == Sorting.Filter(rest, jobs[..i])
    {
      assert jobs[..i + 1] == jobs[..i] + [jobs[i]];
      Sorting.FilterAppend(rest, jobs[..i], [jobs[i]]);
      if jobs[i].id !in ids {
        bookings := bookings + [jobs[i]];
      }
    }
    assert jobs[..|jobs|] == jobs;
  }

  method PlanOne(config: Config, job: Job, servers: seq<Server>, bookings: seq<Job>,
                 now: Time) returns (r: Result<PlanEntry>)
    ensures r == EntryFor(config, job, servers, bookings, now)
  {
    var entry := PlanEntry(job.id, None, job.policy, WaitingForWindow);
    var window := job.RequestedWindow();
    if !window.Valid() {
      entry := entry.(reason := LegacyWindow);
    } else if now >= window.end {
      entry := entry.(reason := WindowEnded);
    } else if config.enabled.Some? && job.org !in config.enabled.value {
      entry := entry.(reason := OrganizationDisabled);
    } else {
      var open := ComputeCalendar(job, servers, bookings, now, config.offlineAfter);
      var placement := Scheduler.PlanPlacement(config.strategy, job, open, now, config.offlineAfter);
      if placement.Ok? {
        entry := entry.(placement := Some(placement.value.(policy := job.policy)), reason := HeldForWindow);
      } else if placement.error != InsufficientGPU {
        return Err(placement.error);
      }
    }
    r := Ok(entry);
  }

  method ComputePlan(config: Config, jobs: seq<Job>, servers: seq<Server>, now: Time)
    returns (r: Result<seq<PlanEntry>>)
    requires Policy.DistinctJobs(jobs)
    ensures r == PlanReservations(config, jobs, servers, now)
  {
    hide EntryFor, Held, Policy.Ordered, Candidates, Fixed;
    var candidates, bookings := Split(config, jobs, now);
    var queue := Policy.Order(candidates, config.facts, now);
    var result: seq<PlanEntry> := [];
    ghost var booked0 := bookings;
    assert queue[0..] == queue;
    for i := 0 to |queue|
      invariant After(result, PlanQueue(config, queue[i..], servers, bookings, now))
        == PlanQueue(config, queue, servers, booked0, now)
    {
      assert queue[i..][0] == queue[i] && queue[i..][1..] == queue[i + 1..];
      var entry := PlanOne(config, queue[i], servers, bookings, now);
      if entry.Err? {
        return Err(entry.error);
      }
      if entry.value.placement.Some? {
        bookings := bookings + [Held(queue[i], entry.value.placement.value)];
      }
      result := result + [entry.value];
    }
    assert queue[|queue|..] == [];
    r := Ok(result);
  }

  /** Entries decided so far, followed by the rest of the plan. */
  function After(done: seq<PlanEntry>, rest: Result<seq<PlanEntry>>): (r: Result<seq<PlanEntry>>)
    ensures forall e: PlanEntry, more :: rest == Ok([e] + more) ==> r == Ok((done + [e]) + more)
    ensures rest == Ok([]) ==> r == Ok(done)
    ensures done == [] ==> r == rest
  {
    match rest
    case Err(e) => Err(e)
    case Ok(more) =>
      assert forall e: PlanEntry, tail: seq<PlanEntry> :: more == [e] + tail ==> done + more == (done + [e]) + tail;
      assert done + [] == done && [] + more == more;
      Ok(done + more)
  }
}
