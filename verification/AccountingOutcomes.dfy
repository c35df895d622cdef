/** The accounted state of one GPU, in the fields of what was observed and what is booked. */
module AccountingOutcomes {
  import opened Domain
  import opened Accounting

  /** An active container has the GPU. */
  predicate Has(c: Container, u: Id) {
    c.state in {Running, Paused, Restarting} && u in c.gpus
  }

  /** A managed container of a job that was launched on this host with this GPU. */
  predicate Ours(serverId: Id, jobs: map<Id, Job>, c: Container, u: Id) {
    c.origin == ManagedOrigin && c.jobId in jobs && jobs[c.jobId].assignment.Some?
    && jobs[c.jobId].assignment.value.commandId != NO_ID
    && jobs[c.jobId].assignment.value.serverId == serverId && u in jobs[c.jobId].assignment.value.gpus
  }

  /** The last active container reported under an identifier. */
  predicate LastUnder(cs: seq<Container>, id: Id, i: nat) {
    i < |cs| && cs[i].state in {Running, Paused, Restarting} && cs[i].id == id
    && forall k :: i < k < |cs| && cs[k].id == id ==> cs[k].state !in {Running, Paused, Restarting}
  }

  /** The process runs on the GPU, and no active container that was reported last under its identifier has it. */
  ghost predicate Stray(cs: seq<Container>, p: GPUProcess, u: Id) {
    p.gpu == u && forall i: nat :: LastUnder(cs, p.containerId, i) ==> u !in cs[i].gpus
  }

  /** A live job that was dispatched to this host with this GPU. */
  predicate HeldBy(serverId: Id, job: Job, u: Id) {
    job.status !in {Stopped, Succeeded, Failed, Cancelled} && job.assignment.Some?
    && job.assignment.value.state in {ReservedState, AllocatedState, ReleasedState}
    && job.assignment.value.serverId == serverId && u in job.assignment.value.gpus
  }

  lemma {:induction false} KnownMeans(cs: seq<Container>, id: Id, u: Id)
    ensures u in KnownGPUs(cs, id) <==> exists i: nat :: LastUnder(cs, id, i) && u in cs[i].gpus
  {
    if cs != [] {
      var n := |cs| - 1;
      KnownMeans(cs[..n], id, u);
      assert forall k :: 0 <= k < n ==> cs[..n][k] == cs[k];
      if Consumes(cs[n].state) && cs[n].id == id {
        assert LastUnder(cs, id, n);
        assert forall i: nat :: LastUnder(cs, id, i) ==> i == n;
      } else {
        forall i: nat ensures LastUnder(cs, id, i) <==> LastUnder(cs[..n], id, i) {
        }
      }
    }
  }

  lemma StrayMeans(cs: seq<Container>, p: GPUProcess, u: Id)
    ensures Unattributed(cs, p, u) <==> Stray(cs, p, u)
  {
    KnownMeans(cs, p.containerId, u);
  }

  /** The state of a GPU, first reason first: unhealthy; in an active container that is not ours; in containers of two
      jobs, or with a stray process; in one of ours; reported in unknown use; held by a dispatched job; and otherwise
      free. */
  ghost predicate AccountedAs(serverId: Id, g: GPU, cs: seq<Container>, ps: seq<GPUProcess>, jobs: map<Id, Job>,
                              n: GPU) {
    n == g.(state := n.state, assignedJob := n.assignedJob)
    && if !g.healthy then n.state == Unhealthy && n.assignedJob == NO_ID
       else if exists c :: c in cs && Has(c, g.uuid) && !Ours(serverId, jobs, c, g.uuid) then
         n.state == OccupiedLegacy && n.assignedJob == NO_ID
       else if (exists c, d :: c in cs && d in cs && Has(c, g.uuid) && Has(d, g.uuid) && c.jobId != d.jobId)
               || (exists p :: p in ps && Stray(cs, p, g.uuid)) then
         n.state == OccupiedUnknown && n.assignedJob == NO_ID
       else if exists c :: c in cs && Has(c, g.uuid) then
         n.state == Allocated && exists c :: c in cs && Has(c, g.uuid) && n.assignedJob == c.jobId
       else if g.state == OccupiedUnknown then n.state == OccupiedUnknown && n.assignedJob == NO_ID
       else if exists j :: j in jobs && HeldBy(serverId, jobs[j], g.uuid) then
         n.state == Reserved && n.assignedJob in jobs && HeldBy(serverId, jobs[n.assignedJob], g.uuid)
       else n.state == Free && n.assignedJob == NO_ID
  }

  lemma HeldMeans(serverId: Id, job: Job, u: Id)
    ensures Holds(job, serverId, u) <==> HeldBy(serverId, job, u)
  {
  }

  lemma OursMeans(serverId: Id, jobs: map<Id, Job>, c: Container, u: Id)
    ensures Recognised(serverId, jobs, c, u) <==> Ours(serverId, jobs, c, u)
    ensures Grants(c, u) <==> Has(c, u)
  {
  }

  lemma StateExactly(serverId: Id, g: GPU, cs: seq<Container>, ps: seq<GPUProcess>, jobs: map<Id, Job>)
    ensures AccountedAs(serverId, g, cs, ps, jobs, NormalizeGPU(serverId, g, cs, ps, jobs))
  {
    hide Recognised, Ours, Grants, Has, Unattributed, Stray, Holds, HeldBy;
    var u := g.uuid;
    forall c
      ensures Recognised(serverId, jobs, c, u) <==> Ours(serverId, jobs, c, u)
      ensures Grants(c, u) <==> Has(c, u)
    {
      OursMeans(serverId, jobs, c, u);
    }
    forall p ensures Unattributed(cs, p, u) <==> Stray(cs, p, u) {
      StrayMeans(cs, p, u);
    }
    forall j | j in jobs ensures Holds(jobs[j], serverId, u) <==> HeldBy(serverId, jobs[j], u) {
      HeldMeans(serverId, jobs[j], u);
    }
    if !LegacyIn(serverId, jobs, cs, u) {
      ClashMeans(serverId, cs, jobs, u);
    }
  }

  lemma ClashMeans(serverId: Id, cs: seq<Container>, jobs: map<Id, Job>, u: Id)
    requires !LegacyIn(serverId, jobs, cs, u)
    ensures ClashIn(serverId, jobs, cs, u)
       <==> exists c, d :: c in cs && d in cs && Has(c, u) && Has(d, u) && c.jobId != d.jobId
  {
    hide Recognised;
    if ClashIn(serverId, jobs, cs, u) {
      var i, j :| i != j && ManagedBy(serverId, jobs, cs, u, i) && ManagedBy(serverId, jobs, cs, u, j);
      var c :| c in cs && Grants(c, u) && Recognised(serverId, jobs, c, u) && c.jobId == i;
      var d :| d in cs && Grants(d, u) && Recognised(serverId, jobs, d, u) && d.jobId == j;
      assert Has(c, u) && Has(d, u);
    }
    if c, d :| c in cs && d in cs && Has(c, u) && Has(d, u) && c.jobId != d.jobId {
      assert Grants(c, u) && Grants(d, u);
      assert ManagedBy(serverId, jobs, cs, u, c.jobId) && ManagedBy(serverId, jobs, cs, u, d.jobId);
    }
  }
}
