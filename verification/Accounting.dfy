/** GPU accounting: availability derived from observed consumers and live reservations. */
module Accounting {
  import opened Domain

  /** A job whose reservation reached the hosts and has not ended. */
  predicate Dispatched(job: Job) {
    job.assignment.Some? && !job.status.Terminal() && job.assignment.value.state != PlannedState
  }

  predicate Holds(job: Job, serverId: Id, uuid: Id) {
    Dispatched(job) && job.assignment.value.serverId == serverId && uuid in job.assignment.value.gpus
  }

  ghost predicate WellKeyed(jobs: map<Id, Job>) {
    forall k :: k in jobs ==> jobs[k].id == k && k != NO_ID
  }

  /** No two live dispatched jobs hold one GPU of one server. */
  ghost predicate Exclusive(jobs: map<Id, Job>) {
    forall i, j, s, u :: i in jobs && j in jobs && Holds(jobs[i], s, u) && Holds(jobs[j], s, u) ==> i == j
  }

  // ---------------------------------------------------------------- What the observations say

  predicate Grants(c: Container, uuid: Id) {
    Consumes(c.state) && uuid in c.gpus
  }

  /** A grant the control plane made itself: a managed container of a launched job, on its own GPU. */
  predicate Recognised(serverId: Id, jobs: map<Id, Job>, c: Container, uuid: Id) {
    c.origin == ManagedOrigin && c.jobId in jobs && jobs[c.jobId].assignment.Some?
    && var a := jobs[c.jobId].assignment.value;
       a.commandId != NO_ID && a.serverId == serverId && uuid in a.gpus
  }

  predicate GrantedIn(cs: seq<Container>, uuid: Id) {
    exists c :: c in cs && Grants(c, uuid)
  }

  predicate LegacyIn(serverId: Id, jobs: map<Id, Job>, cs: seq<Container>, uuid: Id) {
    exists c :: c in cs && Grants(c, uuid) && !Recognised(serverId, jobs, c, uuid)
  }

  predicate ManagedBy(serverId: Id, jobs: map<Id, Job>, cs: seq<Container>, uuid: Id, job: Id) {
    exists c :: c in cs && Grants(c, uuid) && Recognised(serverId, jobs, c, uuid) && c.jobId == job
  }

  predicate ManagedIn(serverId: Id, jobs: map<Id, Job>, cs: seq<Container>, uuid: Id) {
    exists c :: c in cs && Grants(c, uuid) && Recognised(serverId, jobs, c, uuid)
  }

  ghost predicate ClashIn(serverId: Id, jobs: map<Id, Job>, cs: seq<Container>, uuid: Id) {
    exists i, j :: i != j && ManagedBy(serverId, jobs, cs, uuid, i) && ManagedBy(serverId, jobs, cs, uuid, j)
  }

  /** GPUs of the last active container reported under an identifier. */
  function KnownGPUs(cs: seq<Container>, containerId: Id): seq<Id> {
    if cs == [] then []
    else if Consumes(cs[|cs| - 1].state) && cs[|cs| - 1].id == containerId then cs[|cs| - 1].gpus
    else KnownGPUs(cs[..|cs| - 1], containerId)
  }

  predicate Unattributed(cs: seq<Container>, p: GPUProcess, uuid: Id) {
    p.gpu == uuid && p.gpu !in KnownGPUs(cs, p.containerId)
  }

  predicate UnattributedIn(cs: seq<Container>, ps: seq<GPUProcess>, uuid: Id) {
    exists p :: p in ps && Unattributed(cs, p, uuid)
  }

  ghost predicate ReservedIn(serverId: Id, jobs: map<Id, Job>, uuid: Id) {
    exists j :: j in jobs && Holds(jobs[j], serverId, uuid)
  }

  ghost predicate ReservedAmong(serverId: Id, jobs: map<Id, Job>, keys: set<Id>, uuid: Id) {
    exists j :: j in jobs && j in keys && Holds(jobs[j], serverId, uuid)
  }

  // ---------------------------------------------------------------- Specification of the normal form

  ghost function NormalizeGPU(serverId: Id, g: GPU, cs: seq<Container>, ps: seq<GPUProcess>, jobs: map<Id, Job>): GPU {
    if !g.healthy then g.(state := Unhealthy, assignedJob := NO_ID)
    else if LegacyIn(serverId, jobs, cs, g.uuid) then g.(state := OccupiedLegacy, assignedJob := NO_ID)
    else if ClashIn(serverId, jobs, cs, g.uuid) || UnattributedIn(cs, ps, g.uuid) then
      g.(state := OccupiedUnknown, assignedJob := NO_ID)
    else if ManagedIn(serverId, jobs, cs, g.uuid) then
      var c :| c in cs && Grants(c, g.uuid) && Recognised(serverId, jobs, c, g.uuid);
      g.(state := Allocated, assignedJob := c.jobId)
    else if g.state == OccupiedUnknown then g.(assignedJob := NO_ID)
    else if ReservedIn(serverId, jobs, g.uuid) then
      var j :| j in jobs && Holds(jobs[j], serverId, g.uuid);
      g.(state := Reserved, assignedJob := j)
    else g.(state := Free, assignedJob := NO_ID)
  }

  ghost function NormalizeGPUs(serverId: Id, gpus: seq<GPU>, cs: seq<Container>, ps: seq<GPUProcess>,
                               jobs: map<Id, Job>): (r: seq<GPU>)
    ensures |r| == |gpus|
    ensures forall i :: 0 <= i < |r| ==> r[i] == NormalizeGPU(serverId, gpus[i], cs, ps, jobs)
  {
    seq(|gpus|, i requires 0 <= i < |gpus| => NormalizeGPU(serverId, gpus[i], cs, ps, jobs))
  }

  // ---------------------------------------------------------------- What the normal form means

  lemma {:induction false} KnownGPUsAreGranted(cs: seq<Container>, containerId: Id, uuid: Id)
    requires uuid in KnownGPUs(cs, containerId)
    ensures GrantedIn(cs, uuid)
  {
    var c := cs[|cs| - 1];
    if Consumes(c.state) && c.id == containerId {
      assert c in cs && Grants(c, uuid);
    } else {
      KnownGPUsAreGranted(cs[..|cs| - 1], containerId, uuid);
    }
  }

  lemma GrantsAreClassified(serverId: Id, jobs: map<Id, Job>, cs: seq<Container>, uuid: Id)
    ensures GrantedIn(cs, uuid)
       <==> LegacyIn(serverId, jobs, cs, uuid) || ManagedIn(serverId, jobs, cs, uuid)
  {
    if GrantedIn(cs, uuid) && !LegacyIn(serverId, jobs, cs, uuid) {
      var c :| c in cs && Grants(c, uuid);
      assert ManagedBy(serverId, jobs, cs, uuid, c.jobId);
    }
  }

  lemma ProcessesAreClassified(cs: seq<Container>, ps: seq<GPUProcess>, uuid: Id)
    requires !UnattributedIn(cs, ps, uuid) && !GrantedIn(cs, uuid)
    ensures forall p :: p in ps ==> p.gpu != uuid
  {
    forall p | p in ps ensures p.gpu != uuid {
      if uuid in KnownGPUs(cs, p.containerId) {
        KnownGPUsAreGranted(cs, p.containerId, uuid);
      }
      assert !Unattributed(cs, p, uuid);
    }
  }

  /** FREE is exactly: healthy, no active grant, no process, not reported unknown, no live reservation. */
  lemma FreeExactly(serverId: Id, g: GPU, cs: seq<Container>, ps: seq<GPUProcess>, jobs: map<Id, Job>)
    ensures NormalizeGPU(serverId, g, cs, ps, jobs).state == Free
       <==> g.healthy && !GrantedIn(cs, g.uuid) && (forall p :: p in ps ==> p.gpu != g.uuid)
            && g.state != OccupiedUnknown && !ReservedIn(serverId, jobs, g.uuid)
  {
    GrantsAreClassified(serverId, jobs, cs, g.uuid);
    if !UnattributedIn(cs, ps, g.uuid) && !GrantedIn(cs, g.uuid) {
      ProcessesAreClassified(cs, ps, g.uuid);
    }
  }

  /** The observation shows that the GPU must not be given away. */
  predicate ObservedBusy(g: GPU, cs: seq<Container>, ps: seq<GPUProcess>) {
    !g.healthy || GrantedIn(cs, g.uuid) || (exists p :: p in ps && p.gpu == g.uuid) || g.state == OccupiedUnknown
  }

  /** Re-accounting the same containers without processes, as a release does, never frees a GPU that was observed
      busy, whichever jobs held it before and after, the released one included: the observation survives in the
      health, in a grant or in the recorded state. */
  lemma ReaccountingKeepsObservations(serverId: Id, g: GPU, cs: seq<Container>, ps: seq<GPUProcess>,
                                      before: map<Id, Job>, after: map<Id, Job>)
    requires ObservedBusy(g, cs, ps)
    ensures NormalizeGPU(serverId, NormalizeGPU(serverId, g, cs, ps, before), cs, [], after).state != Free
  {
    var n := NormalizeGPU(serverId, g, cs, ps, before);
    FreeExactly(serverId, g, cs, ps, before);
    FreeExactly(serverId, n, cs, [], after);
    GrantsAreClassified(serverId, before, cs, g.uuid);
    if !GrantedIn(cs, g.uuid) && !UnattributedIn(cs, ps, g.uuid) {
      ProcessesAreClassified(cs, ps, g.uuid);
    }
  }

  /** Without a clash the managed owner is unique; with exclusivity so is the reserving job. */
  lemma OwnersAreUnique(serverId: Id, g: GPU, cs: seq<Container>, ps: seq<GPUProcess>, jobs: map<Id, Job>)
    requires Exclusive(jobs)
    ensures var n := NormalizeGPU(serverId, g, cs, ps, jobs);
      && (n.state == Allocated ==> forall j :: ManagedBy(serverId, jobs, cs, g.uuid, j) <==> j == n.assignedJob)
      && (n.state == Reserved ==> forall j :: j in jobs && Holds(jobs[j], serverId, g.uuid) <==> j == n.assignedJob)
  {
    var n := NormalizeGPU(serverId, g, cs, ps, jobs);
    if n.state == Allocated {
      assert ManagedBy(serverId, jobs, cs, g.uuid, n.assignedJob);
    }
  }

  /** A held GPU is accounted to its holder, and a START on it can be delivered, exactly when the device is healthy
      and nobody else is seen on it: no foreign grant, no stray process, no container of another job, and no
      unexplained use. */
  lemma OwnedExactly(serverId: Id, g: GPU, cs: seq<Container>, ps: seq<GPUProcess>, jobs: map<Id, Job>, job: Id)
    requires Exclusive(jobs) && job in jobs && Holds(jobs[job], serverId, g.uuid)
    ensures var n := NormalizeGPU(serverId, g, cs, ps, jobs);
      n.assignedJob == job && (n.state == Reserved || n.state == Allocated) <==>
        (&& g.healthy
         && (forall c :: c in cs && Grants(c, g.uuid) ==> Recognised(serverId, jobs, c, g.uuid) && c.jobId == job)
         && !UnattributedIn(cs, ps, g.uuid)
         && (GrantedIn(cs, g.uuid) || g.state != OccupiedUnknown))
  {
    hide Recognised, Grants, UnattributedIn, Holds;
    var n := NormalizeGPU(serverId, g, cs, ps, jobs);
    OwnersAreUnique(serverId, g, cs, ps, jobs);
    GrantsAreClassified(serverId, jobs, cs, g.uuid);
    if n.state == Allocated && n.assignedJob == job {
      forall c | c in cs && Grants(c, g.uuid) ensures Recognised(serverId, jobs, c, g.uuid) && c.jobId == job {
        if Recognised(serverId, jobs, c, g.uuid) {
          assert ManagedBy(serverId, jobs, cs, g.uuid, c.jobId);
        }
      }
    }
    if forall c :: c in cs && Grants(c, g.uuid) ==> Recognised(serverId, jobs, c, g.uuid) && c.jobId == job {
      assert forall k :: ManagedBy(serverId, jobs, cs, g.uuid, k) ==> k == job;
    }
  }

  // ---------------------------------------------------------------- The accounting loops

  /** Map iteration visits the keys in no particular order. */
  method Pick<T>(keys: set<T>) returns (k: T)
    requires keys != {}
    ensures k in keys
  {
    k :| k in keys;
  }

  method CollectReservations(serverId: Id, jobs: map<Id, Job>) returns (reserved: map<Id, Id>)
    requires WellKeyed(jobs)
    ensures forall u :: u in reserved <==> ReservedIn(serverId, jobs, u)
    ensures forall u :: u in reserved ==> reserved[u] in jobs && Holds(jobs[reserved[u]], serverId, u)
  {
    reserved := map[];
    var todo := jobs.Keys;
    while todo != {}
      invariant todo <= jobs.Keys
      invariant forall u :: u in reserved <==> ReservedAmong(serverId, jobs, jobs.Keys - todo, u)
      invariant forall u :: u in reserved ==> reserved[u] in jobs && Holds(jobs[reserved[u]], serverId, u)
      decreases todo
    {
      var k := Pick(todo);
      var job := jobs[k];
      ghost var before := reserved;
      ghost var done := jobs.Keys - todo;
      todo := todo - {k};
      assert jobs.Keys - todo == done + {k};
      assert forall u :: ReservedAmong(serverId, jobs, done + {k}, u)
                    <==> ReservedAmong(serverId, jobs, done, u) || Holds(job, serverId, u);
      if Dispatched(job) && job.assignment.value.serverId == serverId {
        var uuids := job.assignment.value.gpus;
        for i := 0 to |uuids|
          invariant forall u :: u in reserved <==> u in before || u in uuids[..i]
          invariant forall u :: u in reserved ==> reserved[u] in jobs && Holds(jobs[reserved[u]], serverId, u)
        {
          reserved := reserved[uuids[i] := job.id];
        }
        assert forall u :: u in uuids <==> Holds(job, serverId, u);
      }
    }
  }

  method CollectGrants(serverId: Id, cs: seq<Container>, jobs: map<Id, Job>)
    returns (legacy: set<Id>, clash: set<Id>, managed: map<Id, Id>)
    requires WellKeyed(jobs)
    ensures forall u :: u in legacy <==> LegacyIn(serverId, jobs, cs, u)
    ensures forall u :: u in clash <==> ClashIn(serverId, jobs, cs, u)
    ensures forall u :: u in managed <==> ManagedIn(serverId, jobs, cs, u)
    ensures forall u :: u in managed ==> ManagedBy(serverId, jobs, cs, u, managed[u])
  {
    legacy, clash, managed := {}, {}, map[];
    for i := 0 to |cs|
      invariant Collected(serverId, jobs, cs[..i], legacy, clash, managed)
    {
      var c := cs[i];
      assert cs[..i + 1] == cs[..i] + [c];
      if Consumes(c.state) {
        legacy, clash, managed := AddContainer(serverId, cs[..i], c, jobs, legacy, clash, managed);
      } else {
        EmptyContainer(serverId, jobs, cs[..i], c);
      }
    }
    assert cs[..|cs|] == cs;
  }

  method AddContainer(serverId: Id, ghost cs: seq<Container>, c: Container, jobs: map<Id, Job>,
                      legacy0: set<Id>, clash0: set<Id>, managed0: map<Id, Id>)
    returns (legacy: set<Id>, clash: set<Id>, managed: map<Id, Id>)
    requires WellKeyed(jobs) && Consumes(c.state)
    requires Collected(serverId, jobs, cs, legacy0, clash0, managed0)
    ensures Collected(serverId, jobs, cs + [c], legacy, clash, managed)
  {
    hide Collected, Recognised;
    legacy, clash, managed := legacy0, clash0, managed0;
    CollectNothing(serverId, jobs, cs, c.(gpus := c.gpus[..0]), legacy, clash, managed);
    for j := 0 to |c.gpus|
      invariant Collected(serverId, jobs, cs + [c.(gpus := c.gpus[..j])], legacy, clash, managed)
    {
      var uuid := c.gpus[j];
      CollectGrant(serverId, jobs, cs, c, j, legacy, clash, managed);
      if Recognised(serverId, jobs, c, uuid) {
        if uuid in managed && managed[uuid] != c.jobId {
          clash := clash + {uuid};
        }
        managed := managed[uuid := c.jobId];
      } else {
        legacy := legacy + {uuid};
      }
    }
    assert c.(gpus := c.gpus[..|c.gpus|]) == c;
  }

  ghost predicate Collected(serverId: Id, jobs: map<Id, Job>, cs: seq<Container>,
                            legacy: set<Id>, clash: set<Id>, managed: map<Id, Id>) {
    && (forall u :: u in legacy <==> LegacyIn(serverId, jobs, cs, u))
    && (forall u :: u in clash <==> ClashIn(serverId, jobs, cs, u))
    && (forall u :: u in managed <==> ManagedIn(serverId, jobs, cs, u))
    && (forall u :: u in managed ==> ManagedBy(serverId, jobs, cs, u, managed[u]))
  }

  lemma CollectNothing(serverId: Id, jobs: map<Id, Job>, cs: seq<Container>, c: Container,
                       legacy: set<Id>, clash: set<Id>, managed: map<Id, Id>)
    requires c.gpus == [] && Collected(serverId, jobs, cs, legacy, clash, managed)
    ensures Collected(serverId, jobs, cs + [c], legacy, clash, managed)
  {
    hide LegacyIn, ManagedIn, ManagedBy;
    EmptyContainer(serverId, jobs, cs, c);
  }

  lemma CollectGrant(serverId: Id, jobs: map<Id, Job>, cs: seq<Container>, c: Container, j: nat,
                     legacy: set<Id>, clash: set<Id>, managed: map<Id, Id>)
    requires j < |c.gpus| && Consumes(c.state)
    requires Collected(serverId, jobs, cs + [c.(gpus := c.gpus[..j])], legacy, clash, managed)
    ensures var v, rec := c.gpus[j], Recognised(serverId, jobs, c, c.gpus[j]);
      Collected(serverId, jobs, cs + [c.(gpus := c.gpus[..j + 1])],
                if rec then legacy else legacy + {v},
                if rec && v in managed && managed[v] != c.jobId then clash + {v} else clash,
                if rec then managed[v := c.jobId] else managed)
  {
    GrantSteps(serverId, jobs, cs, c, j);
    var xs, ys, v := cs + [c.(gpus := c.gpus[..j])], cs + [c.(gpus := c.gpus[..j + 1])], c.gpus[j];
    forall u
      ensures ClashIn(serverId, jobs, ys, u)
         <==> (ClashIn(serverId, jobs, xs, u)
               || (u == v && Recognised(serverId, jobs, c, v) && v in managed && managed[v] != c.jobId))
    {
      if u == v && Recognised(serverId, jobs, c, v) {
        assert ManagedBy(serverId, jobs, ys, v, c.jobId);
        if v in managed && managed[v] != c.jobId {
          assert ManagedBy(serverId, jobs, ys, v, managed[v]);
        } else if v in managed && !ClashIn(serverId, jobs, xs, v) {
          assert forall k :: ManagedBy(serverId, jobs, xs, v, k) ==> k == managed[v];
        }
      }
    }
  }

  lemma GrantSteps(serverId: Id, jobs: map<Id, Job>, cs: seq<Container>, c: Container, j: nat)
    requires j < |c.gpus| && Consumes(c.state)
    ensures var xs, ys, v := cs + [c.(gpus := c.gpus[..j])], cs + [c.(gpus := c.gpus[..j + 1])], c.gpus[j];
      && (forall u :: LegacyIn(serverId, jobs, ys, u)
                 <==> LegacyIn(serverId, jobs, xs, u) || (u == v && !Recognised(serverId, jobs, c, v)))
      && (forall u :: ManagedIn(serverId, jobs, ys, u)
                 <==> ManagedIn(serverId, jobs, xs, u) || (u == v && Recognised(serverId, jobs, c, v)))
      && (forall u, k :: ManagedBy(serverId, jobs, ys, u, k)
                    <==> ManagedBy(serverId, jobs, xs, u, k)
                         || (u == v && Recognised(serverId, jobs, c, v) && k == c.jobId))
  {
    var xs, ys, v := cs + [c.(gpus := c.gpus[..j])], cs + [c.(gpus := c.gpus[..j + 1])], c.gpus[j];
    var x, y := c.(gpus := c.gpus[..j]), c.(gpus := c.gpus[..j + 1]);
    assert c.gpus[..j + 1] == c.gpus[..j] + [v];
    assert forall u :: Grants(y, u) <==> Grants(x, u) || u == v;
    assert forall u :: Recognised(serverId, jobs, x, u) == Recognised(serverId, jobs, c, u);
    assert forall u :: Recognised(serverId, jobs, y, u) == Recognised(serverId, jobs, c, u);
    assert forall d :: d in xs <==> d in cs || d == x;
    assert forall d :: d in ys <==> d in cs || d == y;
  }

  lemma EmptyContainer(serverId: Id, jobs: map<Id, Job>, cs: seq<Container>, c: Container)
    requires !Consumes(c.state) || c.gpus == []
    ensures forall u :: LegacyIn(serverId, jobs, cs + [c], u) <==> LegacyIn(serverId, jobs, cs, u)
    ensures forall u :: ManagedIn(serverId, jobs, cs + [c], u) <==> ManagedIn(serverId, jobs, cs, u)
    ensures forall u, k :: ManagedBy(serverId, jobs, cs + [c], u, k) <==> ManagedBy(serverId, jobs, cs, u, k)
  {
    assert forall d :: d in cs + [c] <==> d in cs || d == c;
  }

  /** The accounting pass computes the normal form of every GPU. Exclusivity makes the owner unique, so the
      order in which jobs are visited does not matter. */
  method NormalizeGPUState(serverId: Id, gpus: seq<GPU>, cs: seq<Container>, ps: seq<GPUProcess>, jobs: map<Id, Job>)
    returns (result: seq<GPU>)
    requires WellKeyed(jobs) && Exclusive(jobs)
    ensures result == NormalizeGPUs(serverId, gpus, cs, ps, jobs)
  {
    var reserved := CollectReservations(serverId, jobs);
    var legacy, unknown, managed := CollectGrants(serverId, cs, jobs);
    ghost var clash := unknown;
    for i := 0 to |ps|
      invariant forall u :: u in unknown <==> u in clash || UnattributedIn(cs, ps[..i], u)
    {
      var p := ps[i];
      assert ps[..i + 1] == ps[..i] + [p];
      var known := KnownGPUs(cs, p.containerId);
      if p.gpu !in known {
        assert Unattributed(cs, p, p.gpu);
        unknown := unknown + {p.gpu};
      }
    }
    assert ps[..|ps|] == ps;
    result := [];
    for i := 0 to |gpus|
      invariant |result| == i
      invariant forall k :: 0 <= k < i ==> result[k] == NormalizeGPU(serverId, gpus[k], cs, ps, jobs)
    {
      var g := gpus[i];
      OwnersAreUnique(serverId, g, cs, ps, jobs);
      if !g.healthy {
        g := g.(state := Unhealthy, assignedJob := NO_ID);
      } else if g.uuid in legacy {
        g := g.(state := OccupiedLegacy, assignedJob := NO_ID);
      } else if g.uuid in unknown {
        g := g.(state := OccupiedUnknown, assignedJob := NO_ID);
      } else if g.uuid in managed {
        g := g.(state := Allocated, assignedJob := managed[g.uuid]);
      } else if g.state == OccupiedUnknown {
        g := g.(assignedJob := NO_ID);
      } else if g.uuid in reserved {
        g := g.(state := Reserved, assignedJob := reserved[g.uuid]);
      } else {
        g := g.(state := Free, assignedJob := NO_ID);
      }
      result := result + [g];
    }
  }
}
