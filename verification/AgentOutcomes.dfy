/** When the Agent's check lets a launch through, and what a launch and a stop do, in the fields of the observation. */
module AgentOutcomes {
  import opened Domain
  import opened AgentHost

  // ---------------------------------------------------------------- What a container holds

  predicate Listed(gpus: seq<Device>, u: Id) {
    exists i :: 0 <= i < |gpus| && gpus[i].uuid == u
  }

  /** The first device with that index. */
  predicate DeviceAt(gpus: seq<Device>, index: int, u: Id) {
    exists i :: 0 <= i < |gpus| && gpus[i].index == index && gpus[i].uuid == u
                && forall k :: 0 <= k < i ==> gpus[k].index != index
  }

  predicate HasIndex(gpus: seq<Device>, index: int) {
    exists i :: 0 <= i < |gpus| && gpus[i].index == index
  }

  lemma {:induction false} IndexMeans(gpus: seq<Device>, index: int)
    ensures IndexUUID(gpus, index).Some? <==> HasIndex(gpus, index)
    ensures IndexUUID(gpus, index).Some? ==> DeviceAt(gpus, index, IndexUUID(gpus, index).value)
    ensures forall u :: DeviceAt(gpus, index, u) ==> IndexUUID(gpus, index) == Some(u)
  {
    if gpus != [] {
      var rest := gpus[1..];
      assert gpus == [gpus[0]] + rest;
      IndexMeans(rest, index);
      if gpus[0].index == index {
        assert DeviceAt(gpus, index, gpus[0].uuid);
      } else {
        if HasIndex(rest, index) {
          var i :| 0 <= i < |rest| && rest[i].index == index;
          assert gpus[i + 1].index == index;
        }
        if HasIndex(gpus, index) {
          var i :| 0 <= i < |gpus| && gpus[i].index == index;
          assert rest[i - 1].index == index;
        }
        forall u ensures DeviceAt(gpus, index, u) <==> DeviceAt(rest, index, u) {
          if DeviceAt(gpus, index, u) {
            var i :| 0 <= i < |gpus| && gpus[i].index == index && gpus[i].uuid == u
              && forall k :: 0 <= k < i ==> gpus[k].index != index;
            assert rest[i - 1] == gpus[i] && forall k :: 0 <= k < i - 1 ==> rest[k] == gpus[k + 1];
          }
          if DeviceAt(rest, index, u) {
            var i :| 0 <= i < |rest| && rest[i].index == index && rest[i].uuid == u
              && forall k :: 0 <= k < i ==> rest[k].index != index;
            assert gpus[i + 1] == rest[i];
            assert forall k :: 0 <= k < i + 1 ==> gpus[k].index != index;
          }
        }
      }
    }
  }

  /** The configuration lists the device by identifier or by index. */
  predicate Lists(c: RuntimeContainer, gpus: seq<Device>, u: Id) {
    u != NO_ID && (u in c.gpus || exists x :: x in c.indexes && DeviceAt(gpus, x, u))
  }

  /** Every device the configuration lists is known. */
  ghost predicate Pinned(c: RuntimeContainer, gpus: seq<Device>) {
    && !c.unbounded
    && (forall x :: x in c.indexes ==> HasIndex(gpus, x))
    && (forall u :: Lists(c, gpus, u) ==> Listed(gpus, u))
  }

  predicate Active(c: RuntimeContainer) {
    c.state in {Running, Paused, Restarting}
  }

  /** The container is on the device: it lists it, or nobody can say what it lists, or one of its processes runs
      there. */
  ghost predicate IsOn(view: View, r: ContainerRef, c: RuntimeContainer, u: Id) {
    || (if Active(c) && !Pinned(c, view.gpus) then Listed(view.gpus, u) else Lists(c, view.gpus, u))
    || (u != NO_ID && exists p :: p in view.processes && p.container == Some(r) && p.gpu == u)
  }

  lemma ListsMeans(c: RuntimeContainer, gpus: seq<Device>)
    ensures forall u :: AgentHost.Named(c, gpus, u) <==> Lists(c, gpus, u)
    ensures Unbounded(c, gpus) <==> !Pinned(c, gpus)
    ensures forall u :: Known(gpus, u) <==> Listed(gpus, u)
  {
    hide IndexUUID, DeviceAt, HasIndex;
    forall x
      ensures IndexUUID(gpus, x).Some? <==> HasIndex(gpus, x)
      ensures forall u :: DeviceAt(gpus, x, u) <==> IndexUUID(gpus, x) == Some(u)
    {
      IndexMeans(gpus, x);
    }
  }

  lemma IsOnMeans(view: View, r: ContainerRef, c: RuntimeContainer, u: Id)
    ensures Uses(view, r, c, u) <==> IsOn(view, r, c, u)
  {
    hide Unbounded, Pinned, AgentHost.Named, Lists, Known, Listed;
    ListsMeans(c, view.gpus);
  }

  // ---------------------------------------------------------------- The check before a launch

  /** An active container the observation takes for the job's own. */
  predicate OfJob(containers: Containers, r: ContainerRef, job: Id) {
    r in containers && Active(containers[r]) && containers[r].tag in {Labelled, OtherCase}
    && containers[r].jobId == job != NO_ID
  }

  /** The device is in use and no active container explains it, or its own use cannot be read. */
  ghost predicate Unexplained(view: View, containers: Containers, g: Device) {
    || g.unknown
    || ((view.unknownMemory <= g.memUsed || view.unknownUtilization <= g.utilization)
        && forall r :: r in containers && Active(containers[r]) ==> !IsOn(view, r, containers[r], g.uuid))
  }

  /** The device is listed, healthy where it is listed last, without unexplained use, and nobody else is on it. */
  ghost predicate DeviceFree(view: View, containers: Containers, job: Id, u: Id) {
    && (exists i :: 0 <= i < |view.gpus| && view.gpus[i].uuid == u && view.gpus[i].healthy
                    && forall k :: i < k < |view.gpus| ==> view.gpus[k].uuid != u)
    && (forall g :: g in view.gpus && g.uuid == u ==> !Unexplained(view, containers, g))
    && (forall r :: r in containers && Active(containers[r]) && !OfJob(containers, r, job) ==>
          !IsOn(view, r, containers[r], u))
    && (forall p :: p in view.processes && p.gpu == u ==>
            p.container.Some? && OfJob(containers, p.container.value, job))
  }

  lemma {:induction false} HealthyMeans(gpus: seq<Device>, u: Id)
    ensures Healthy(gpus, u)
       <==> exists i :: 0 <= i < |gpus| && gpus[i].uuid == u && gpus[i].healthy
                        && forall k :: i < k < |gpus| ==> gpus[k].uuid != u
  {
    if gpus != [] {
      var n := |gpus| - 1;
      HealthyMeans(gpus[..n], u);
      if gpus[n].uuid != u {
        if i :| 0 <= i < n && gpus[..n][i].uuid == u && gpus[..n][i].healthy
                && forall k :: i < k < n ==> gpus[..n][k].uuid != u {
          assert gpus[i].uuid == u && forall k :: i < k < |gpus| ==> gpus[k].uuid != u;
        }
        if i :| 0 <= i < |gpus| && gpus[i].uuid == u && gpus[i].healthy
                && forall k :: i < k < |gpus| ==> gpus[k].uuid != u {
          assert gpus[..n][i] == gpus[i] && forall k :: i < k < n ==> gpus[..n][k].uuid != u;
        }
      }
    }
  }

  lemma UnexplainedMeans(view: View, containers: Containers, g: Device)
    ensures Suspicious(view, containers, g) <==> Unexplained(view, containers, g)
  {
    hide Uses, IsOn;
    forall r | r in containers ensures Uses(view, r, containers[r], g.uuid) <==> IsOn(view, r, containers[r], g.uuid) {
      IsOnMeans(view, r, containers[r], g.uuid);
    }
  }

  lemma FreeMeans(view: View, containers: Containers, job: Id, u: Id)
    ensures Healthy(view.gpus, u) && !Occupied(view, containers, job, u) <==> DeviceFree(view, containers, job, u)
  {
    hide Uses, IsOn, Suspicious, Unexplained, Healthy;
    HealthyMeans(view.gpus, u);
    forall g ensures Suspicious(view, containers, g) <==> Unexplained(view, containers, g) {
      UnexplainedMeans(view, containers, g);
    }
    forall r | r in containers ensures Uses(view, r, containers[r], u) <==> IsOn(view, r, containers[r], u) {
      IsOnMeans(view, r, containers[r], u);
    }
    forall r ensures Own(containers, job, r) <==> OfJob(containers, r, job) {
    }
  }

  /** A launch is let through exactly when the order is complete, the containers could be read, and every device it
      names is free for the job. */
  ghost predicate LetThrough(h: Host, order: Order)
    requires order.StartOrder?
  {
    && order.job != NO_ID && order.image && order.gpus != [] && order.view.ready
    && forall u :: u in order.gpus && u != NO_ID ==> DeviceFree(order.view, h.containers, order.job, u)
  }

  /** A launch that is not let through changes nothing. Otherwise the job's container is answered if it exists, and
      made, on the devices of the order, if the runtime takes it and its state can be saved. */
  lemma LaunchOutcome(h: Host, order: Order)
    requires order.StartOrder?
    ensures var (next, reply) := Execute(h, order);
      if !LetThrough(h, order) then next == h && reply == Refused
      else if Managed(order.job) in h.containers then next == h && reply == Launched(Managed(order.job))
      else if h.rejectStarts > 0 then next == h.(rejectStarts := h.rejectStarts - 1) && reply == Refused
      else if !order.saved then next == h && reply == Refused
      else
        && reply == Launched(Managed(order.job)) && next.rejectStarts == h.rejectStarts
        && next.containers == h.containers[Managed(order.job) := next.containers[Managed(order.job)]]
        && var c := next.containers[Managed(order.job)];
           c.state == Running && c.tag == Labelled && c.jobId == order.job && c.gpus == order.gpus
           && c.indexes == [] && !c.unbounded
  {
    hide Healthy, Occupied, DeviceFree;
    forall u
      ensures Healthy(order.view.gpus, u) && !Occupied(order.view, h.containers, order.job, u)
         <==> DeviceFree(order.view, h.containers, order.job, u)
    {
      FreeMeans(order.view, h.containers, order.job, u);
    }
  }

  /** A stop ends the job's own container and nothing else: it refuses another container by name, and changes nothing
      when it cannot save. */
  lemma StopOutcome(h: Host, order: Order)
    requires order.StopOrder?
    ensures var (next, reply) := Execute(h, order);
      if order.job == NO_ID then next == h && reply == Refused
      else
        var own := Managed(order.job);
        if order.target.Some? && order.target.value != own then
          next == h && reply == (if order.target.value in h.containers then Refused else Ended(None))
        else if own !in h.containers then next == h && reply == Ended(None)
        else if !order.saved then next == h && reply == Refused
        else
          && reply == Ended(Some(own)) && own in next.containers && next.containers[own].state == Exited
          && next == h.(containers := h.containers[own := h.containers[own].(state := Exited)])
  {
  }
}
