/** When a plan is accepted, and what it makes of the jobs it names. */
module ReplanOutcomes {
  import opened Domain
  import opened Accounting
  import opened Calendar
  import opened StoreSpec
  import opened StoreSteps
  import opened StoreInvariant
  import opened ReplanInvariant
  import opened StoreRuns
  import opened StepEffects
  import opened StepOutcomes
  import A = PlannerAgreement
  import I = PlannerIdempotence
  import Sorting

  // ---------------------------------------------------------------- When an entry is accepted

  /** Still in the queue, or booked, not launched, and the booked window has not begun. */
  predicate MayMove(j: Job, now: Time) {
    || j.status == Queued
    || (j.status == Assigned && j.assignment.Some? && j.assignment.value.state == PlannedState
        && j.assignment.value.commandId == NO_ID && now < j.assignment.value.start)
  }

  lemma MoveMeans(j: Job, now: Time)
    ensures j.Replannable(now) <==> MayMove(j, now)
  {
  }

  predicate Listed(gpus: seq<GPU>, u: Id) {
    exists g :: g in gpus && g.uuid == u
  }

  /** The place is on a ready host of the organisation, and each of the different GPUs it names is open in the
      window. */
  ghost predicate PlaceIsOpen(st: State, j: Job, p: Placement, bookings: seq<Job>, at: Time) {
    p.serverId in st.servers
    && var host := st.servers[p.serverId];
       && HostReady(host, at, st.offlineAfter) && j.org == host.org != NO_ID && |p.gpus| == j.resources.gpuCount > 0
       && (forall u :: u in p.gpus ==> u != NO_ID && Listed(host.gpus, u))
       && (forall i, k :: 0 <= i < k < |p.gpus| ==> p.gpus[i] != p.gpus[k])
       && (forall g :: g in host.gpus && g.uuid in p.gpus ==> OpenFor(j, p.serverId, g, bookings, at))
  }

  /** An entry is accepted when it places nobody, or places its job in a window that has not ended, on an open place. */
  ghost predicate Acceptable(st: State, at: Time, entry: PlanEntry, bookings: seq<Job>)
    requires entry.jobId in st.jobs
  {
    entry.placement.Some? ==>
      && EndOf(st.jobs[entry.jobId]).Some? && at < EndOf(st.jobs[entry.jobId]).value
      && PlaceIsOpen(st, st.jobs[entry.jobId], entry.placement.value, bookings, at)
  }

  /** The store's check of a placement against the projected host, in terms of the host itself. */
  lemma ProjectionMatches(j: Job, host: Server, p: Placement, bookings: seq<Job>, at: Time)
    requires ServerOk(host) && j.selector == map[]
    ensures PlacementMatches(j, ProjectServer(j, host, bookings, at), p)
       <==> && j.org == host.org != NO_ID && |p.gpus| == j.resources.gpuCount > 0
            && (forall u :: u in p.gpus ==> u != NO_ID && Listed(host.gpus, u))
            && (forall i, k :: 0 <= i < k < |p.gpus| ==> p.gpus[i] != p.gpus[k])
            && (forall g :: g in host.gpus && g.uuid in p.gpus ==> OpenFor(j, host.id, g, bookings, at))
  {
    hide ProjectGPU, OpenFor, Resources.Matches;
    var q := ProjectServer(j, host, bookings, at);
    forall i | 0 <= i < |host.gpus|
      ensures q.gpus[i].uuid == host.gpus[i].uuid
      ensures j.resources.Matches(q.gpus[i]) <==> OpenFor(j, host.id, host.gpus[i], bookings, at)
    {
      assert host.gpus[i] in host.gpus;
      OpenExactly(j, host.id, host.gpus[i], bookings, at);
    }
    forall u ensures Listed(host.gpus, u) <==> Listed(q.gpus, u) {
      if g :| g in host.gpus && g.uuid == u {
        var i :| 0 <= i < |host.gpus| && host.gpus[i] == g;
        assert q.gpus[i] in q.gpus;
      }
      if g :| g in q.gpus && g.uuid == u {
        var i :| 0 <= i < |q.gpus| && q.gpus[i] == g;
        assert host.gpus[i] in host.gpus;
      }
    }
    assert (forall g :: g in q.gpus && g.uuid in p.gpus ==> j.resources.Matches(g))
      <==> (forall g :: g in host.gpus && g.uuid in p.gpus ==> OpenFor(j, host.id, g, bookings, at)) by {
      if forall g :: g in q.gpus && g.uuid in p.gpus ==> j.resources.Matches(g) {
        forall g | g in host.gpus && g.uuid in p.gpus ensures OpenFor(j, host.id, g, bookings, at) {
          var i :| 0 <= i < |host.gpus| && host.gpus[i] == g;
          assert q.gpus[i] in q.gpus;
        }
      }
      if forall g :: g in host.gpus && g.uuid in p.gpus ==> OpenFor(j, host.id, g, bookings, at) {
        forall g | g in q.gpus && g.uuid in p.gpus ensures j.resources.Matches(g) {
          var i :| 0 <= i < |q.gpus| && q.gpus[i] == g;
          assert host.gpus[i] in host.gpus;
        }
      }
    }
  }

  lemma OpenReads(j: Job, k: Job, serverId: Id, bookings: seq<Job>, at: Time)
    requires SameRequest(j, k)
    ensures forall g :: OpenFor(j, serverId, g, bookings, at) == OpenFor(k, serverId, g, bookings, at)
  {
    assert j.RequestedWindow() == k.RequestedWindow();
  }

  /** The store accepts an entry exactly when it is acceptable. */
  lemma EntryExactly(st: State, at: Time, entry: PlanEntry, bookings: seq<Job>)
    requires Valid(st) && entry.jobId in st.jobs
    ensures EntryValid(st, at, entry, SnapshotServers(st), bookings) <==> Acceptable(st, at, entry, bookings)
  {
    hide Valid, ServersOk, ProjectServer, PlacementMatches, OpenFor, HostReady, Server.Schedulable, Job.RequestedWindow,
         PlacementOpen, PlaceIsOpen, EndOf, SnapshotServers;
    ValidParts(st);
    JobsAreOk(st, entry.jobId);
    NoSelector(st.jobs[entry.jobId]);
    var stored := st.jobs[entry.jobId];
    var job := stored.(assignment := None, policy := entry.policy);
    WindowMeans(stored);
    SameWindow(stored, job);
    if entry.placement.Some? && job.RequestedWindow().Valid() {
      PlaceExactly(st, at, stored, job, entry.placement.value, bookings);
    }
  }

  lemma SameWindow(j: Job, k: Job)
    requires SameRequest(j, k)
    ensures j.RequestedWindow() == k.RequestedWindow()
  {
  }

  lemma PlaceExactly(st: State, at: Time, stored: Job, job: Job, p: Placement, bookings: seq<Job>)
    requires ServersOk(st) && SameRequest(stored, job) && job.selector == map[] && job.RequestedWindow().Valid()
    ensures PlacementOpen(st, job, p, SnapshotServers(st), bookings, at) <==> PlaceIsOpen(st, stored, p, bookings, at)
  {
    hide ProjectServer, PlacementMatches, OpenFor, HostReady, Server.Schedulable, SnapshotServers, ServerOk, ProjectAll,
         Listed, SameRequest, Job.RequestedWindow;
    var servers := SnapshotServers(st);
    OpenReads(stored, job, p.serverId, bookings, at);
    ProjectAllMembers(job, servers, bookings, at, st.offlineAfter);
    SnapshotHasEverything(st);
    SameAsker(stored, job);
    if PlacementOpen(st, job, p, servers, bookings, at) {
      var host := AcceptedHost(st, at, job, p, bookings);
      ReadyMeans(host, at, st.offlineAfter);
      ProjectionMatches(job, host, p, bookings, at);
    }
    if PlaceIsOpen(st, stored, p, bookings, at) {
      var host := st.servers[p.serverId];
      assert host in st.servers.Values;
      ReadyMeans(host, at, st.offlineAfter);
      ProjectionMatches(job, host, p, bookings, at);
      ProjectServerKeepsIdentity(job, host, bookings, at);
      ProjectionReads(job, host, bookings, at, st.offlineAfter);
      assert ProjectServer(job, host, bookings, at) in CalendarServers(job, servers, bookings, at, st.offlineAfter);
    }
  }

  lemma SameAsker(j: Job, k: Job)
    requires SameRequest(j, k)
    ensures j.org == k.org && j.resources == k.resources && j.id == k.id
  {
  }

  lemma ProjectionReads(job: Job, host: Server, bookings: seq<Job>, at: Time, timeout: int)
    ensures ProjectServer(job, host, bookings, at).Schedulable(at, timeout) <==> host.Schedulable(at, timeout)
  {
  }

  // ---------------------------------------------------------------- What an accepted entry makes of its job

  /** Booked at the place for the requested window, since the moment it first got that place, or back in the queue; an
      event is written only when the status or the reason changes. */
  predicate PlacedAs(j: Job, k: Job, e: PlanEntry, at: Time) {
    var status := if e.placement.Some? then Assigned else Queued;
    var moves := j.status != status || j.reason != e.reason;
    && k == j.(status := status, reason := e.reason, policy := e.policy, assignment := k.assignment,
               updatedAt := if moves then at else j.updatedAt,
               events := if moves then j.events + [Event(j.id, status, e.reason, at)] else j.events)
    && match e.placement
       case None => k.assignment.None?
       case Some(p) =>
         && k.assignment.Some? && EndOf(j).Some?
         && var a := k.assignment.value;
            && a.start == j.neededAt.at && a.end == EndOf(j).value && a.serverId == p.serverId && a.gpus == p.gpus
            && a.commandId == NO_ID && a.state == PlannedState && a.releasedAt.None?
            && a.strategy == p.strategy && a.score == p.score && a.reason == e.reason
            && a.assignedAt == (if j.assignment.Some? && j.assignment.value.serverId == p.serverId
                                   && j.assignment.value.gpus == p.gpus
                                then j.assignment.value.assignedAt else at)
  }

  lemma PlacedMeans(j: Job, e: PlanEntry, at: Time)
    requires j.status in {Queued, Assigned} && (e.placement.Some? ==> EndOf(j).Some?)
    ensures PlacedAs(j, PlacedJob(j, e, at), e, at)
  {
    hide Transition, Job.RequestedWindow, EndOf;
    WindowMeans(j);
    var cleared := j.(assignment := None, policy := e.policy);
    match e.placement
    case None => WordingMeans(cleared, Queued, e.reason, at);
    case Some(p) =>
      var window := j.RequestedWindow();
      var since := if SamePlace(j.assignment, p) then j.assignment.value.assignedAt else at;
      var booked := cleared.(assignment := Some(Assignment(window.start, window.end, p.serverId, p.gpus, NO_ID, since,
                                                           PlannedState, None, p.strategy, p.score, e.reason)));
      WordingMeans(booked, Assigned, e.reason, at);
  }

  lemma WordingMeans(job: Job, status: JobStatus, reason: Reason, at: Time)
    requires job.status in {Queued, Assigned} && status in {Queued, Assigned}
    ensures var next, moves := Transition(job, status, reason, at), job.status != status || job.reason != reason;
      next == job.(status := status, reason := reason, updatedAt := if moves then at else job.updatedAt,
                   events := if moves then job.events + [Event(job.id, status, reason, at)] else job.events)
  {
  }

  // ---------------------------------------------------------------- The whole plan

  /** The bookings an entry is checked against: everybody the plan does not name, and what it placed before. */
  function BookingsBefore(st: State, at: Time, plans: seq<PlanEntry>, bookings: seq<Job>, n: nat): seq<Job>
    requires n <= |plans| && forall e :: e in plans ==> e.jobId in st.jobs
  {
    if n == 0 then bookings
    else
      var e, before := plans[n - 1], BookingsBefore(st, at, plans, bookings, n - 1);
      if e.placement.Some? then before + [PlacedJob(st.jobs[e.jobId], e, at)] else before
  }

  lemma {:induction false} BookingsShift(st: State, at: Time, plans: seq<PlanEntry>, bookings: seq<Job>, n: nat)
    requires plans != [] && n < |plans| && forall e :: e in plans ==> e.jobId in st.jobs
    ensures forall e :: e in plans[1..] ==> e.jobId in st.jobs
    ensures BookingsBefore(st, at, plans, bookings, n + 1)
         == BookingsBefore(st, at, plans[1..], BookingsBefore(st, at, plans, bookings, 1), n)
  {
    hide PlacedJob;
    assert forall e :: e in plans[1..] ==> e in plans;
    if n > 0 {
      BookingsShift(st, at, plans, bookings, n - 1);
      assert plans[1..][n - 1] == plans[n];
    }
  }

  lemma {:induction false} AllPlaced(st: State, at: Time, plans: seq<PlanEntry>, servers: seq<Server>, batch: Batch)
    requires forall e :: e in plans ==> e.jobId in st.jobs
    ensures PlaceAll(st, at, plans, servers, batch).Ok?
       <==> forall i :: 0 <= i < |plans| ==>
              EntryValid(st, at, plans[i], servers, BookingsBefore(st, at, plans, batch.bookings, i))
    decreases |plans|
  {
    hide EntryValid, PlacedJob, SamePlace;
    if plans != [] {
      var e, rest := plans[0], plans[1..];
      assert forall e :: e in rest ==> e in plans;
      var placed := PlacedJob(st.jobs[e.jobId], e, at);
      var next := Batch(batch.changed[e.jobId := placed],
                        if e.placement.Some? then batch.bookings + [placed] else batch.bookings,
                        if e.placement.Some? && !SamePlace(st.jobs[e.jobId].assignment, e.placement.value)
                        then batch.count + 1 else batch.count);
      assert next.bookings == BookingsBefore(st, at, plans, batch.bookings, 1) by {
        assert BookingsBefore(st, at, plans, batch.bookings, 0) == batch.bookings;
      }
      AllPlaced(st, at, rest, servers, next);
      forall i | 0 <= i < |rest|
        ensures rest[i] == plans[i + 1]
        ensures BookingsBefore(st, at, plans, batch.bookings, i + 1) == BookingsBefore(st, at, rest, next.bookings, i)
      {
        BookingsShift(st, at, plans, batch.bookings, i);
      }
      if PlaceAll(st, at, plans, servers, batch).Ok? {
        forall i | 0 <= i < |plans|
          ensures EntryValid(st, at, plans[i], servers, BookingsBefore(st, at, plans, batch.bookings, i))
        {
          if i > 0 { assert plans[i] == rest[i - 1]; }
        }
      }
      if forall i :: 0 <= i < |plans| ==>
           EntryValid(st, at, plans[i], servers, BookingsBefore(st, at, plans, batch.bookings, i)) {
        assert EntryValid(st, at, plans[0], servers, BookingsBefore(st, at, plans, batch.bookings, 0));
        forall i | 0 <= i < |rest| ensures EntryValid(st, at, rest[i], servers,
                                                      BookingsBefore(st, at, rest, next.bookings, i)) {
          assert EntryValid(st, at, plans[i + 1], servers, BookingsBefore(st, at, plans, batch.bookings, i + 1));
        }
      }
    }
  }

  /** The entries name different jobs that may still move. */
  ghost predicate NamesMovable(st: State, at: Time, plans: seq<PlanEntry>) {
    && (forall e :: e in plans ==> e.jobId in st.jobs && MayMove(st.jobs[e.jobId], at))
    && (forall i, k :: 0 <= i < k < |plans| ==> plans[i].jobId != plans[k].jobId)
  }

  /** Every job the plan does not name, by identifier. */
  ghost function Unnamed(st: State, plans: seq<PlanEntry>): seq<Job> {
    NotPlanned(SnapshotJobs(st), plans)
  }

  lemma UnnamedMeans(st: State, plans: seq<PlanEntry>)
    requires JobsOk(st.jobs)
    ensures forall j :: j in Unnamed(st, plans)
                   <==> j.id in st.jobs && st.jobs[j.id] == j && forall e :: e in plans ==> e.jobId != j.id
  {
    hide JobOk, SnapshotJobs;
    A.SnapshotJobsOk(st);
    Sorting.FilterMembers((j: Job) => !Planned(plans, j.id), SnapshotJobs(st));
  }

  /** A plan is accepted exactly when it names different jobs that may move and each entry is acceptable given the
      jobs it does not name and the entries before; otherwise it is refused as a whole. */
  lemma PlanExactly(st: State, at: Time, plans: seq<PlanEntry>)
    requires Valid(st)
    ensures Replan(st, at, plans).Ok?
       <==> NamesMovable(st, at, plans)
            && forall i :: 0 <= i < |plans| ==>
                 Acceptable(st, at, plans[i], BookingsBefore(st, at, plans, Unnamed(st, plans), i))
    ensures Replan(st, at, plans).Err? ==> Replan(st, at, plans).error == Conflict
  {
    hide Valid, EntryValid, Acceptable, PlaceAll, Job.Replannable, MayMove, SnapshotServers, NotPlanned, SnapshotJobs;
    forall j: Job ensures j.Replannable(at) <==> MayMove(j, at) {
      MoveMeans(j, at);
    }
    if NamesMovable(st, at, plans) {
      AllPlaced(st, at, plans, SnapshotServers(st), Batch(map[], Unnamed(st, plans), 0));
      forall i | 0 <= i < |plans|
        ensures EntryValid(st, at, plans[i], SnapshotServers(st), BookingsBefore(st, at, plans, Unnamed(st, plans), i))
           <==> Acceptable(st, at, plans[i], BookingsBefore(st, at, plans, Unnamed(st, plans), i))
      {
        assert plans[i] in plans;
        EntryExactly(st, at, plans[i], BookingsBefore(st, at, plans, Unnamed(st, plans), i));
      }
    }
    OnlyConflicts(st, at, plans);
  }

  lemma OnlyConflicts(st: State, at: Time, plans: seq<PlanEntry>)
    ensures Replan(st, at, plans).Err? ==> Replan(st, at, plans).error == Conflict
  {
    hide EntryValid, PlacedJob, Job.Replannable, SnapshotServers, NotPlanned, SnapshotJobs, PlaceAll;
    if Claimable(st, at, plans) {
      RefusedAsConflict(st, at, plans, SnapshotServers(st), Batch(map[], NotPlanned(SnapshotJobs(st), plans), 0));
    }
  }

  lemma {:induction false} RefusedAsConflict(st: State, at: Time, plans: seq<PlanEntry>, servers: seq<Server>,
                                             batch: Batch)
    requires forall e :: e in plans ==> e.jobId in st.jobs
    ensures PlaceAll(st, at, plans, servers, batch).Err? ==> PlaceAll(st, at, plans, servers, batch).error == Conflict
    decreases |plans|
  {
    hide EntryValid, PlacedJob, SamePlace;
    if plans != [] {
      var e, rest := plans[0], plans[1..];
      assert forall e :: e in rest ==> e in plans;
      var placed := PlacedJob(st.jobs[e.jobId], e, at);
      RefusedAsConflict(st, at, rest, servers,
                        Batch(batch.changed[e.jobId := placed],
                              if e.placement.Some? then batch.bookings + [placed] else batch.bookings,
                              if e.placement.Some? && !SamePlace(st.jobs[e.jobId].assignment, e.placement.value)
                              then batch.count + 1 else batch.count));
    }
  }

  /** An accepted plan places each job it names and leaves every other job, every host and every command alone. */
  lemma PlanOutcome(st: State, at: Time, plans: seq<PlanEntry>)
    requires Valid(st) && Replan(st, at, plans).Ok?
    ensures var next := Apply(st, ReplanStep(at, Ok(plans)));
      && next == st.(jobs := next.jobs) && next.jobs.Keys == st.jobs.Keys
      && (forall e :: e in plans ==> e.jobId in st.jobs && PlacedAs(st.jobs[e.jobId], next.jobs[e.jobId], e, at))
      && (forall k :: k in st.jobs && !(exists e :: e in plans && e.jobId == k) ==> next.jobs[k] == st.jobs[k])
  {
    hide Valid, Replan, PlacedAs, PlacedJob, Acceptable, MayMove, Apply, Claimable;
    PlanExactly(st, at, plans);
    I.ReplanWrites(st, at, plans);
    I.ReplannedJobs(st, at, plans);
    forall e | e in plans ensures PlacedAs(st.jobs[e.jobId], PlacedJob(st.jobs[e.jobId], e, at), e, at) {
      var i :| 0 <= i < |plans| && plans[i] == e;
      assert Acceptable(st, at, plans[i], BookingsBefore(st, at, plans, Unnamed(st, plans), i));
      MovableIsWaiting(st.jobs[e.jobId], at);
      AcceptedHasWindow(st, at, e, BookingsBefore(st, at, plans, Unnamed(st, plans), i));
      PlacedMeans(st.jobs[e.jobId], e, at);
    }
  }

  lemma MovableIsWaiting(j: Job, at: Time)
    requires MayMove(j, at)
    ensures j.status in {Queued, Assigned}
  {
  }

  lemma AcceptedHasWindow(st: State, at: Time, e: PlanEntry, bookings: seq<Job>)
    requires e.jobId in st.jobs && Acceptable(st, at, e, bookings)
    ensures e.placement.Some? ==> EndOf(st.jobs[e.jobId]).Some?
  {
  }
}
