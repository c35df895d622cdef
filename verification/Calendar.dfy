/** Projection of the GPU inventory into a job's requested window. It never changes physical state. */
module Calendar {
  import opened Domain

  /** The owner of a busy GPU whose window is known to end before `window` starts. */
  predicate EndsBefore(owner: Job, serverId: Id, gpu: GPU, window: TimeWindow) {
    owner.id == gpu.assignedJob && !owner.status.Terminal() && owner.assignment.Some?
    && var a := owner.assignment.value;
       a.serverId == serverId && a.Window().Valid() && a.end <= window.start && gpu.uuid in a.gpus
  }

  predicate Vacates(job: Job, serverId: Id, gpu: GPU, bookings: seq<Job>, now: Time) {
    var window := job.RequestedWindow();
    window.start > now && (gpu.state == Allocated || gpu.state == Reserved)
    && exists owner :: owner in bookings && EndsBefore(owner, serverId, gpu, window)
  }

  function Vacate(job: Job, serverId: Id, gpu: GPU, bookings: seq<Job>, now: Time): GPU {
    if Vacates(job, serverId, gpu, bookings, now) then gpu.(state := Free, assignedJob := NO_ID, memUsed := 0) else gpu
  }

  /** A booking that takes the GPU away from `job`: a live one, of another job, overlapping or without an end. */
  predicate Conflicts(booked: Job, job: Job, serverId: Id, uuid: Id) {
    booked.id != job.id && !booked.status.Terminal() && booked.assignment.Some?
    && var a := booked.assignment.value;
       a.releasedAt.None? && a.serverId == serverId && uuid in a.gpus
       && (!a.Window().Valid() || job.RequestedWindow().Overlaps(a.Window()))
  }

  function Block(job: Job, serverId: Id, gpu: GPU, bookings: seq<Job>): GPU
    decreases |bookings|
  {
    if bookings == [] then gpu
    else if Conflicts(bookings[0], job, serverId, gpu.uuid) && gpu.Schedulable() then
      Block(job, serverId, gpu.(state := Reserved, assignedJob := bookings[0].id), bookings[1..])
    else Block(job, serverId, gpu, bookings[1..])
  }

  function ProjectGPU(job: Job, serverId: Id, gpu: GPU, bookings: seq<Job>, now: Time): GPU {
    if !gpu.healthy || !job.resources.CapabilityMatches(gpu) || gpu.memTotal < job.resources.minVRAM then gpu
    else Block(job, serverId, Vacate(job, serverId, gpu, bookings, now), bookings)
  }

  function ProjectServer(job: Job, server: Server, bookings: seq<Job>, now: Time): Server {
    server.(gpus := seq(|server.gpus|, i requires 0 <= i < |server.gpus| =>
      ProjectGPU(job, server.id, server.gpus[i], bookings, now)))
  }

  predicate Eligible(job: Job, server: Server, now: Time, offlineAfter: int) {
    SameOrganization(job.org, server.org) && server.Schedulable(now, offlineAfter)
  }

  function ProjectAll(job: Job, servers: seq<Server>, bookings: seq<Job>, now: Time, offlineAfter: int): seq<Server> {
    if servers == [] then []
    else (if Eligible(job, servers[0], now, offlineAfter) then [ProjectServer(job, servers[0], bookings, now)] else [])
         + ProjectAll(job, servers[1..], bookings, now, offlineAfter)
  }

  function CalendarServers(job: Job, servers: seq<Server>, bookings: seq<Job>, now: Time,
                           offlineAfter: int): seq<Server> {
    if !job.RequestedWindow().Valid() then [] else ProjectAll(job, servers, bookings, now, offlineAfter)
  }

  // ---------------------------------------------------------------- What a projected GPU means

  /** Any model without a profile or a model, or with the automatic profile; otherwise the named model or one of the
      listed ones, which are what counts as soon as a profile is named or FP8 is asked for. */
  predicate Capable(request: Resources, model: Id) {
    || (request.profile == Auto && !request.fp8)
    || (request.profile == NoProfile && !request.fp8 && request.gpuModel in {NO_ID, model})
    || ((request.profile.Named? || request.fp8) && model in request.models)
  }

  /** A live booking of the GPU that has not been released. */
  predicate BooksGPU(b: Job, serverId: Id, uuid: Id) {
    b.status !in {Stopped, Succeeded, Failed, Cancelled} && b.assignment.Some? && b.assignment.value.releasedAt.None?
    && b.assignment.value.serverId == serverId && uuid in b.assignment.value.gpus
  }

  /** The booking has a known window, over before the other starts or starting after the other ends. */
  predicate Apart(b: Job, window: TimeWindow) {
    b.assignment.Some? && b.assignment.value.start != ZERO_TIME && b.assignment.value.start < b.assignment.value.end
    && (b.assignment.value.end <= window.start || window.end <= b.assignment.value.start)
  }

  /** The GPU is busy for a live job that is known to have left it when `start` comes. */
  ghost predicate LeavesBefore(serverId: Id, gpu: GPU, bookings: seq<Job>, now: Time, start: Time) {
    now < start && gpu.state in {Allocated, Reserved}
    && exists b :: b in bookings && b.id == gpu.assignedJob && b.status !in {Stopped, Succeeded, Failed, Cancelled}
                   && b.assignment.Some? && b.assignment.value.serverId == serverId
                   && gpu.uuid in b.assignment.value.gpus
                   && b.assignment.value.start != ZERO_TIME
                   && b.assignment.value.start < b.assignment.value.end <= start
  }

  /** The GPU can be promised to `job`: healthy, capable, clear of every other live booking in the requested window, and
      either free with enough memory, or busy for a job that will have left it and large enough when empty. */
  ghost predicate OpenFor(job: Job, serverId: Id, gpu: GPU, bookings: seq<Job>, now: Time) {
    var window := job.RequestedWindow();
    && gpu.healthy
    && Capable(job.resources, gpu.model)
    && (forall b :: b in bookings && b.id != job.id && BooksGPU(b, serverId, gpu.uuid) ==> Apart(b, window))
    && if LeavesBefore(serverId, gpu, bookings, now, window.start) then gpu.memTotal >= job.resources.minVRAM
       else
         gpu.state == Free && gpu.assignedJob == NO_ID
         && (job.resources.minVRAM <= 0 || gpu.memUsed + job.resources.minVRAM <= gpu.memTotal)
  }

  predicate SoundGPU(g: GPU) {
    g.uuid != NO_ID && g.memTotal > 0 && g.memUsed >= 0
  }

  lemma {:induction false} BlockExactly(job: Job, serverId: Id, gpu: GPU, bookings: seq<Job>)
    ensures var g := Block(job, serverId, gpu, bookings);
      && g.uuid == gpu.uuid && g.model == gpu.model && g.healthy == gpu.healthy
      && g.memTotal == gpu.memTotal && g.memUsed == gpu.memUsed
      && (g.Schedulable() <==>
            gpu.Schedulable() && forall b :: b in bookings ==> !Conflicts(b, job, serverId, gpu.uuid))
      && (!gpu.Schedulable() ==> g == gpu)
    decreases |bookings|
  {
    if bookings != [] {
      assert bookings == [bookings[0]] + bookings[1..];
      BlockExactly(job, serverId, gpu, bookings[1..]);
      BlockExactly(job, serverId, gpu.(state := Reserved, assignedJob := bookings[0].id), bookings[1..]);
    }
  }

  lemma VacatesMeans(job: Job, serverId: Id, gpu: GPU, bookings: seq<Job>, now: Time)
    ensures Vacates(job, serverId, gpu, bookings, now)
       <==> LeavesBefore(serverId, gpu, bookings, now, job.RequestedWindow().start)
  {
    var start := job.RequestedWindow().start;
    if Vacates(job, serverId, gpu, bookings, now) {
      var b :| b in bookings && EndsBefore(b, serverId, gpu, job.RequestedWindow());
      assert b.assignment.value.start < b.assignment.value.end <= start;
    }
    if LeavesBefore(serverId, gpu, bookings, now, start) {
      var b :| b in bookings && b.id == gpu.assignedJob && b.status !in {Stopped, Succeeded, Failed, Cancelled}
        && b.assignment.Some? && b.assignment.value.serverId == serverId && gpu.uuid in b.assignment.value.gpus
        && b.assignment.value.start != ZERO_TIME && b.assignment.value.start < b.assignment.value.end <= start;
      assert EndsBefore(b, serverId, gpu, job.RequestedWindow());
    }
  }

  lemma ConflictMeans(b: Job, job: Job, serverId: Id, uuid: Id)
    ensures Conflicts(b, job, serverId, uuid)
       <==> b.id != job.id && BooksGPU(b, serverId, uuid) && !Apart(b, job.RequestedWindow())
  {
  }

  /** A projected GPU matches exactly when the calendar is open for it. */
  lemma OpenExactly(job: Job, serverId: Id, gpu: GPU, bookings: seq<Job>, now: Time)
    requires SoundGPU(gpu)
    ensures ProjectGPU(job, serverId, gpu, bookings, now).uuid == gpu.uuid
    ensures job.resources.Matches(ProjectGPU(job, serverId, gpu, bookings, now))
       <==> OpenFor(job, serverId, gpu, bookings, now)
  {
    hide Conflicts, Vacates, LeavesBefore, BooksGPU, Apart, Block, Job.RequestedWindow;
    BlockExactly(job, serverId, Vacate(job, serverId, gpu, bookings, now), bookings);
    VacatesMeans(job, serverId, gpu, bookings, now);
    forall b | b in bookings
      ensures Conflicts(b, job, serverId, gpu.uuid)
         <==> b.id != job.id && BooksGPU(b, serverId, gpu.uuid) && !Apart(b, job.RequestedWindow())
    {
      ConflictMeans(b, job, serverId, gpu.uuid);
    }
  }

  lemma {:induction false} ProjectAllMembers(job: Job, servers: seq<Server>, bookings: seq<Job>, now: Time,
                                             offlineAfter: int)
    ensures forall p :: p in ProjectAll(job, servers, bookings, now, offlineAfter)
              <==> exists s :: s in servers && Eligible(job, s, now, offlineAfter)
                               && p == ProjectServer(job, s, bookings, now)
  {
    if servers != [] {
      assert servers == [servers[0]] + servers[1..];
      ProjectAllMembers(job, servers[1..], bookings, now, offlineAfter);
    }
  }

  // ---------------------------------------------------------------- The projection reads few fields of a booking

  /** What the projection reads of a booking. */
  datatype Booking = Booking(id: Id, live: bool, held: bool, window: TimeWindow, serverId: Id, gpus: seq<Id>,
                             released: bool)

  function BookingOf(job: Job): Booking {
    match job.assignment
    case None => Booking(job.id, !job.status.Terminal(), false, TimeWindow(0, 0), NO_ID, [], false)
    case Some(a) => Booking(job.id, !job.status.Terminal(), true, a.Window(), a.serverId, a.gpus, a.releasedAt.Some?)
  }

  predicate SameBookings(xs: seq<Job>, ys: seq<Job>) {
    |xs| == |ys| && forall i :: 0 <= i < |xs| ==> BookingOf(xs[i]) == BookingOf(ys[i])
  }

  /** The projection for `job` reads only its identity, its request and its organisation. */
  predicate SameRequest(j: Job, k: Job) {
    j.id == k.id && j.org == k.org && j.resources == k.resources && j.neededAt == k.neededAt
      && j.ttlSeconds == k.ttlSeconds
  }

  lemma {:induction false} BlockReads(j: Job, k: Job, serverId: Id, gpu: GPU, xs: seq<Job>, ys: seq<Job>)
    requires SameRequest(j, k) && SameBookings(xs, ys)
    ensures Block(j, serverId, gpu, xs) == Block(k, serverId, gpu, ys)
    decreases |xs|
  {
    if xs != [] {
      assert BookingOf(xs[0]) == BookingOf(ys[0]);
      assert Conflicts(xs[0], j, serverId, gpu.uuid) == Conflicts(ys[0], k, serverId, gpu.uuid);
      BlockReads(j, k, serverId, gpu, xs[1..], ys[1..]);
      BlockReads(j, k, serverId, gpu.(state := Reserved, assignedJob := xs[0].id), xs[1..], ys[1..]);
    }
  }

  lemma VacatesReads(j: Job, k: Job, serverId: Id, gpu: GPU, xs: seq<Job>, ys: seq<Job>, now: Time)
    requires SameRequest(j, k) && SameBookings(xs, ys)
    ensures Vacates(j, serverId, gpu, xs, now) ==> Vacates(k, serverId, gpu, ys, now)
  {
    if Vacates(j, serverId, gpu, xs, now) {
      var owner :| owner in xs && EndsBefore(owner, serverId, gpu, j.RequestedWindow());
      var i :| 0 <= i < |xs| && xs[i] == owner;
      assert BookingOf(xs[i]) == BookingOf(ys[i]);
      assert ys[i] in ys && EndsBefore(ys[i], serverId, gpu, k.RequestedWindow());
    }
  }

  lemma {:induction false} CalendarReads(j: Job, k: Job, servers: seq<Server>, xs: seq<Job>, ys: seq<Job>, now: Time,
                                         offlineAfter: int)
    requires SameRequest(j, k) && SameBookings(xs, ys)
    ensures CalendarServers(j, servers, xs, now, offlineAfter) == CalendarServers(k, servers, ys, now, offlineAfter)
  {
    if servers != [] {
      var s := servers[0];
      forall i | 0 <= i < |s.gpus|
        ensures ProjectGPU(j, s.id, s.gpus[i], xs, now) == ProjectGPU(k, s.id, s.gpus[i], ys, now)
      {
        VacatesReads(j, k, s.id, s.gpus[i], xs, ys, now);
        VacatesReads(k, j, s.id, s.gpus[i], ys, xs, now);
        BlockReads(j, k, s.id, Vacate(j, s.id, s.gpus[i], xs, now), xs, ys);
      }
      assert ProjectServer(j, s, xs, now).gpus == ProjectServer(k, s, ys, now).gpus;
      CalendarReads(j, k, servers[1..], xs, ys, now, offlineAfter);
    }
  }

  // ---------------------------------------------------------------- The projection loops

  method ProjectOne(job: Job, serverId: Id, original: GPU, bookings: seq<Job>, now: Time) returns (gpu: GPU)
    ensures gpu == ProjectGPU(job, serverId, original, bookings, now)
  {
    var window := job.RequestedWindow();
    gpu := original;
    if !gpu.healthy || !job.resources.CapabilityMatches(gpu) || gpu.memTotal < job.resources.minVRAM {
      return;
    }
    if window.start > now && (gpu.state == Allocated || gpu.state == Reserved) {
      for i := 0 to |bookings|
        invariant gpu == original
        invariant forall owner :: owner in bookings[..i] ==> !EndsBefore(owner, serverId, original, window)
      {
        if EndsBefore(bookings[i], serverId, gpu, window) {
          gpu := gpu.(state := Free, assignedJob := NO_ID, memUsed := 0);
          break;
        }
      }
    }
    assert bookings[..|bookings|] == bookings;
    assert gpu == Vacate(job, serverId, original, bookings, now);
    assert bookings[0..] == bookings;
    for i := 0 to |bookings|
      invariant gpu.uuid == original.uuid
      invariant Block(job, serverId, gpu, bookings[i..])
             == Block(job, serverId, Vacate(job, serverId, original, bookings, now), bookings)
    {
      if Conflicts(bookings[i], job, serverId, gpu.uuid) && gpu.Schedulable() {
        gpu := gpu.(state := Reserved, assignedJob := bookings[i].id);
      }
    }
  }

  lemma {:induction false} ProjectAllAppend(job: Job, servers: seq<Server>, s: Server, bookings: seq<Job>, now: Time,
                                            offlineAfter: int)
    ensures ProjectAll(job, servers + [s], bookings, now, offlineAfter)
         == ProjectAll(job, servers, bookings, now, offlineAfter)
            + (if Eligible(job, s, now, offlineAfter) then [ProjectServer(job, s, bookings, now)] else [])
  {
    if servers == [] {
      assert servers + [s] == [s];
    } else {
      assert (servers + [s])[1..] == servers[1..] + [s];
      ProjectAllAppend(job, servers[1..], s, bookings, now, offlineAfter);
    }
  }

  method ComputeCalendar(job: Job, servers: seq<Server>, bookings: seq<Job>, now: Time, offlineAfter: int)
    returns (result: seq<Server>)
    ensures result == CalendarServers(job, servers, bookings, now, offlineAfter)
  {
    result := [];
    if !job.RequestedWindow().Valid() {
      return;
    }
    for i := 0 to |servers|
      invariant result == ProjectAll(job, servers[..i], bookings, now, offlineAfter)
    {
      var server := servers[i];
      assert servers[..i + 1] == servers[..i] + [server];
      ProjectAllAppend(job, servers[..i], server, bookings, now, offlineAfter);
      if !SameOrganization(job.org, server.org) || !server.Schedulable(now, offlineAfter) {
        continue;
      }
      var gpus := [];
      for k := 0 to |server.gpus|
        invariant |gpus| == k
        invariant forall m :: 0 <= m < k ==> gpus[m] == ProjectGPU(job, server.id, server.gpus[m], bookings, now)
      {
        var gpu := ProjectOne(job, server.id, server.gpus[k], bookings, now);
        gpus := gpus + [gpu];
      }
      assert gpus == ProjectServer(job, server, bookings, now).gpus;
      result := result + [server.(gpus := gpus)];
    }
    assert servers[..|servers|] == servers;
  }
}
