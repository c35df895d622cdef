/** The Agent on one host: what an observation of containers, devices and processes grants, the check before a launch,
  and the idempotent container runtime behind the serial executor. */
module AgentHost {
  import opened Domain
  import opened Accounting

  /** Containers the runtime makes for jobs have names of their own. */
  datatype ContainerRef = External(name: Id) | Managed(job: Id)

  /** The managed label: the inventory compares it ignoring case, the runtime does not. */
  datatype Tag = Unlabelled | Labelled | OtherCase

  datatype RuntimeContainer = RuntimeContainer(state: ContainerState, tag: Tag, jobId: Id,
                                               gpus: seq<Id>, indexes: seq<int>, unbounded: bool) {
    predicate ClassifiedFor(job: Id) {
      tag != Unlabelled && jobId != NO_ID && jobId == job
    }
  }

  type Containers = map<ContainerRef, RuntimeContainer>

  datatype Device = Device(uuid: Id, index: int, healthy: bool, memUsed: int, utilization: real, unknown: bool)

  /** A process on a device, with the container it was attributed to, if any. */
  datatype DeviceProcess = DeviceProcess(gpu: Id, container: Option<ContainerRef>)

  /** A process as the driver reports it: `reported` and the resolver's answer are container identifiers in full or in
      part, empty when unknown. */
  datatype RawProcess = RawProcess(pid: int, gpu: Id, reported: string)

  /** One reading of the hardware. `ready` means the container list could be read as well. */
  datatype View = View(ready: bool, gpus: seq<Device>, processes: seq<DeviceProcess>, unknownMemory: int,
                       unknownUtilization: real)

  // ---------------------------------------------------------------- What a container holds

  function IndexUUID(gpus: seq<Device>, index: int): Option<Id> {
    if gpus == [] then None
    else if gpus[0].index == index then Some(gpus[0].uuid)
    else IndexUUID(gpus[1..], index)
  }

  predicate Known(gpus: seq<Device>, uuid: Id) {
    exists g :: g in gpus && g.uuid == uuid
  }

  predicate ByIndex(c: RuntimeContainer, gpus: seq<Device>, uuid: Id) {
    exists i :: i in c.indexes && IndexUUID(gpus, i) == Some(uuid)
  }

  /** A device the container's configuration names, by identifier or by index. */
  predicate Named(c: RuntimeContainer, gpus: seq<Device>, uuid: Id) {
    uuid != NO_ID && (uuid in c.gpus || ByIndex(c, gpus, uuid))
  }

  /** The configuration cannot be pinned to known devices. */
  ghost predicate Unbounded(c: RuntimeContainer, gpus: seq<Device>) {
    || c.unbounded
    || (exists i :: i in c.indexes && IndexUUID(gpus, i).None?)
    || (exists u :: Named(c, gpus, u) && !Known(gpus, u))
  }

  ghost predicate Configured(c: RuntimeContainer, gpus: seq<Device>, uuid: Id) {
    if Consumes(c.state) && Unbounded(c, gpus) then Known(gpus, uuid) else Named(c, gpus, uuid)
  }

  predicate Runs(view: View, r: ContainerRef, uuid: Id) {
    uuid != NO_ID && exists p :: p in view.processes && p.container == Some(r) && p.gpu == uuid
  }

  ghost predicate Uses(view: View, r: ContainerRef, c: RuntimeContainer, uuid: Id) {
    Configured(c, view.gpus, uuid) || Runs(view, r, uuid)
  }

  /** An active container was seen to use the device. */
  ghost predicate Attributed(view: View, containers: Containers, uuid: Id) {
    exists r :: r in containers && Consumes(containers[r].state) && Uses(view, r, containers[r], uuid)
  }

  predicate Busy(view: View, g: Device) {
    g.memUsed >= view.unknownMemory || g.utilization >= view.unknownUtilization
  }

  ghost predicate Suspicious(view: View, containers: Containers, g: Device) {
    g.unknown || (!Attributed(view, containers, g.uuid) && Busy(view, g))
  }

  // ---------------------------------------------------------------- Attribution of a process

  predicate Prefixed(a: string, b: string) {
    a <= b || b <= a
  }

  /** An exact identifier wins; otherwise any listed container whose identifier extends or abbreviates the given one. */
  predicate Matches(id: string, names: map<ContainerRef, string>, r: Option<ContainerRef>) {
    if exists k :: k in names && names[k] == id then r.Some? && r.value in names && names[r.value] == id
    else match r
      case Some(k) => k in names && Prefixed(names[k], id)
      case None => forall k :: k in names ==> !Prefixed(names[k], id)
  }

  /** What a raw process may be attributed to: the container it was reported with, or the one its resolved identifier
      matches. */
  predicate AttributedTo(p: RawProcess, names: map<ContainerRef, string>, resolved: Option<string>, docker: bool,
                         r: Option<ContainerRef>) {
    if docker && p.reported != "" then
      match r
      case Some(k) => k in names && names[k] == p.reported
      case None => forall k :: k in names ==> names[k] != p.reported
    else if resolved.Some? then Matches(resolved.value, names, r)
    else r.None? || (r.value in names && names[r.value] == "")
  }

  method MatchContainerID(id: string, names: map<ContainerRef, string>) returns (r: Option<ContainerRef>)
    ensures Matches(id, names, r)
  {
    r := FindName(id, names);
    if r.Some? {
      return;
    }
    var todo := names.Keys;
    while todo != {}
      invariant todo <= names.Keys
      invariant forall k :: k in names && k !in todo ==> !Prefixed(names[k], id)
      decreases todo
    {
      var k := Pick(todo);
      todo := todo - {k};
      if Prefixed(names[k], id) {
        return Some(k);
      }
    }
    r := None;
  }

  method FindName(id: string, names: map<ContainerRef, string>) returns (r: Option<ContainerRef>)
    ensures match r
      case Some(k) => k in names && names[k] == id
      case None => forall k :: k in names ==> names[k] != id
  {
    var todo := names.Keys;
    while todo != {}
      invariant todo <= names.Keys
      invariant forall k :: k in names && k !in todo ==> names[k] != id
      decreases todo
    {
      var k := Pick(todo);
      todo := todo - {k};
      if names[k] == id {
        return Some(k);
      }
    }
    r := None;
  }

  /** The correlation of one process. Without Docker the driver's own answer is not believed. */
  method AttributeProcess(p: RawProcess, names: map<ContainerRef, string>, resolved: Option<string>, docker: bool)
    returns (a: DeviceProcess)
    ensures a.gpu == p.gpu && AttributedTo(p, names, resolved, docker, a.container)
  {
    var reported := if docker then p.reported else "";
    var container: Option<ContainerRef>;
    if reported == "" && resolved.Some? {
      container := MatchContainerID(resolved.value, names);
    } else {
      container := FindName(reported, names);
    }
    a := DeviceProcess(p.gpu, container);
  }

  // ---------------------------------------------------------------- When a launch is safe

  /** Active containers of the job itself do not count against it. */
  predicate Own(containers: Containers, job: Id, r: ContainerRef) {
    r in containers && Consumes(containers[r].state) && containers[r].ClassifiedFor(job)
  }

  ghost predicate Occupied(view: View, containers: Containers, job: Id, uuid: Id) {
    || (exists g :: g in view.gpus && g.uuid == uuid && Suspicious(view, containers, g))
    || (exists r :: r in containers && Consumes(containers[r].state) && !Own(containers, job, r)
                       && Uses(view, r, containers[r], uuid))
    || (exists p :: p in view.processes && p.gpu == uuid && Stranger(containers, job, p))
  }

  /** The health of the last device listed under an identifier. */
  predicate Healthy(gpus: seq<Device>, uuid: Id) {
    gpus != [] && var last := gpus[|gpus| - 1];
                  if last.uuid == uuid then last.healthy else Healthy(gpus[..|gpus| - 1], uuid)
  }

  ghost predicate Available(view: View, containers: Containers, wanted: seq<Id>, job: Id) {
    view.ready && forall u :: u in wanted && u != NO_ID ==> Healthy(view.gpus, u) && !Occupied(view, containers, job, u)
  }

  // ---------------------------------------------------------------- The observation, loop by loop

  method AppendUnique(values: seq<Id>, value: Id) returns (r: seq<Id>)
    ensures forall u :: u in r <==> u in values || (u == value && value != NO_ID)
  {
    if value in values || value == NO_ID {
      return values;
    }
    r := values + [value];
  }

  method UniqueIds(values: seq<Id>) returns (r: seq<Id>)
    ensures forall u :: u in r <==> u in values && u != NO_ID
  {
    r := [];
    for i := 0 to |values|
      invariant forall u :: u in r <==> u in values[..i] && u != NO_ID
    {
      assert values[..i + 1] == values[..i] + [values[i]];
      r := AppendUnique(r, values[i]);
    }
    assert values[..|values|] == values;
  }

  method FindIndex(gpus: seq<Device>, index: int) returns (uuid: Option<Id>)
    ensures uuid == IndexUUID(gpus, index)
  {
    assert gpus[0..] == gpus;
    for i := 0 to |gpus|
      invariant IndexUUID(gpus, index) == IndexUUID(gpus[i..], index)
    {
      assert gpus[i..][0] == gpus[i] && gpus[i..][1..] == gpus[i + 1..];
      if gpus[i].index == index {
        return Some(gpus[i].uuid);
      }
    }
    uuid := None;
  }

  method IsKnown(gpus: seq<Device>, uuid: Id) returns (known: bool)
    ensures known == Known(gpus, uuid)
  {
    for i := 0 to |gpus|
      invariant forall g :: g in gpus[..i] ==> g.uuid != uuid
    {
      assert gpus[..i + 1] == gpus[..i] + [gpus[i]];
      if gpus[i].uuid == uuid {
        assert gpus[i] in gpus;
        return true;
      }
    }
    assert gpus[..|gpus|] == gpus;
    known := false;
  }

  /** Devices of one container as its configuration grants them. */
  method ConfiguredGPUs(c: RuntimeContainer, gpus: seq<Device>) returns (uuids: seq<Id>)
    ensures forall u :: u in uuids <==> Configured(c, gpus, u)
  {
    uuids := UniqueIds(c.gpus);
    var unbounded := c.unbounded;
    for i := 0 to |c.indexes|
      invariant forall u :: u in uuids <==> Named(c.(indexes := c.indexes[..i]), gpus, u)
      invariant unbounded <==> c.unbounded || exists k :: k in c.indexes[..i] && IndexUUID(gpus, k).None?
    {
      var index := c.indexes[i];
      assert c.indexes[..i + 1] == c.indexes[..i] + [index];
      var uuid := FindIndex(gpus, index);
      NamedByOneMore(c, gpus, i);
      if uuid.Some? {
        uuids := AppendUnique(uuids, uuid.value);
      } else {
        unbounded := true;
      }
    }
    assert c.indexes[..|c.indexes|] == c.indexes && c.(indexes := c.indexes) == c;
    for i := 0 to |uuids|
      invariant unbounded <==> c.unbounded || (exists k :: k in c.indexes && IndexUUID(gpus, k).None?)
                               || exists u :: u in uuids[..i] && !Known(gpus, u)
    {
      assert uuids[..i + 1] == uuids[..i] + [uuids[i]];
      var known := IsKnown(gpus, uuids[i]);
      if !known {
        unbounded := true;
      }
    }
    assert uuids[..|uuids|] == uuids;
    if Consumes(c.state) && unbounded {
      uuids := AllUUIDs(gpus);
    }
  }

  lemma NamedByOneMore(c: RuntimeContainer, gpus: seq<Device>, i: nat)
    requires i < |c.indexes|
    ensures forall u :: Named(c.(indexes := c.indexes[..i + 1]), gpus, u)
                   <==> Named(c.(indexes := c.indexes[..i]), gpus, u)
                        || (u != NO_ID && IndexUUID(gpus, c.indexes[i]) == Some(u))
  {
    assert c.indexes[..i + 1] == c.indexes[..i] + [c.indexes[i]];
  }

  method AllUUIDs(gpus: seq<Device>) returns (uuids: seq<Id>)
    ensures forall u :: u in uuids <==> Known(gpus, u)
  {
    uuids := [];
    for i := 0 to |gpus|
      invariant forall u :: u in uuids <==> Known(gpus[..i], u)
    {
      assert gpus[..i + 1] == gpus[..i] + [gpus[i]];
      uuids := uuids + [gpus[i].uuid];
    }
    assert gpus[..|gpus|] == gpus;
  }

  /** The correlated snapshot: the devices every container uses, and the devices nobody can be blamed for. */
  method Snapshot(view: View, containers: Containers) returns (used: map<ContainerRef, seq<Id>>, gpus: seq<Device>)
    ensures used.Keys == containers.Keys
    ensures forall r, u :: r in containers ==> (u in used[r] <==> Uses(view, r, containers[r], u))
    ensures |gpus| == |view.gpus|
    ensures forall i :: 0 <= i < |gpus| ==>
      gpus[i] == view.gpus[i].(unknown := Suspicious(view, containers, view.gpus[i]))
  {
    hide Unbounded, Named, Known, Busy;
    used := map[];
    var todo := containers.Keys;
    while todo != {}
      invariant todo <= containers.Keys && used.Keys == containers.Keys - todo
      invariant forall r, u :: r in used ==> (u in used[r] <==> Configured(containers[r], view.gpus, u))
      decreases todo
    {
      var r := Pick(todo);
      todo := todo - {r};
      var uuids := ConfiguredGPUs(containers[r], view.gpus);
      used := used[r := uuids];
    }
    used := AttributeProcesses(view, containers, used);
    gpus := [];
    for i := 0 to |view.gpus|
      invariant |gpus| == i
      invariant forall k :: 0 <= k < i ==>
        gpus[k] == view.gpus[k].(unknown := Suspicious(view, containers, view.gpus[k]))
    {
      var g := view.gpus[i];
      var attributed := IsAttributed(view, containers, used, g.uuid);
      if !attributed && (g.memUsed >= view.unknownMemory || g.utilization >= view.unknownUtilization) {
        g := g.(unknown := true);
      }
      assert Busy(view, view.gpus[i]) == (g.memUsed >= view.unknownMemory || g.utilization >= view.unknownUtilization)
        by { BusyMeans(view, view.gpus[i]); }
      gpus := gpus + [g];
    }
  }

  lemma BusyMeans(view: View, g: Device)
    ensures Busy(view, g) == (g.memUsed >= view.unknownMemory || g.utilization >= view.unknownUtilization)
  {
  }

  method AttributeProcesses(view: View, containers: Containers, configured: map<ContainerRef, seq<Id>>)
    returns (used: map<ContainerRef, seq<Id>>)
    requires configured.Keys == containers.Keys
    requires forall r, u :: r in containers ==> (u in configured[r] <==> Configured(containers[r], view.gpus, u))
    ensures used.Keys == containers.Keys
    ensures forall r, u :: r in containers ==> (u in used[r] <==> Uses(view, r, containers[r], u))
  {
    hide Configured;
    used := configured;
    for i := 0 to |view.processes|
      invariant used.Keys == containers.Keys
      invariant forall r, u :: r in containers ==>
        (u in used[r] <==> Configured(containers[r], view.gpus, u)
                           || Runs(view.(processes := view.processes[..i]), r, u))
    {
      var p := view.processes[i];
      RunsOneMore(view, i);
      if p.container.Some? && p.container.value in used {
        var more := AppendUnique(used[p.container.value], p.gpu);
        used := used[p.container.value := more];
      }
    }
    assert view.processes[..|view.processes|] == view.processes && view.(processes := view.processes) == view;
  }

  lemma RunsOneMore(view: View, i: nat)
    requires i < |view.processes|
    ensures forall r, u :: Runs(view.(processes := view.processes[..i + 1]), r, u) <==>
      (Runs(view.(processes := view.processes[..i]), r, u)
       || (u != NO_ID && view.processes[i].container == Some(r) && view.processes[i].gpu == u))
  {
    var front, more := view.processes[..i], view.processes[..i + 1];
    assert more == front + [view.processes[i]];
    assert forall p :: p in more <==> p in front || p == view.processes[i];
    forall r, u
      ensures Runs(view.(processes := more), r, u) <==>
        (Runs(view.(processes := front), r, u)
         || (u != NO_ID && view.processes[i].container == Some(r) && view.processes[i].gpu == u))
    {
      if Runs(view.(processes := front), r, u) {
        var p :| p in front && p.container == Some(r) && p.gpu == u;
        assert p in more;
      }
    }
  }

  method IsAttributed(view: View, containers: Containers, used: map<ContainerRef, seq<Id>>,
                      uuid: Id) returns (attributed: bool)
    requires used.Keys == containers.Keys
    requires forall r, u :: r in containers ==> (u in used[r] <==> Uses(view, r, containers[r], u))
    ensures attributed == Attributed(view, containers, uuid)
  {
    hide Uses;
    var todo := containers.Keys;
    while todo != {}
      invariant todo <= containers.Keys
      invariant forall r :: r in containers && r !in todo && Consumes(containers[r].state) ==>
        !Uses(view, r, containers[r], uuid)
      decreases todo
    {
      var r := Pick(todo);
      todo := todo - {r};
      if Consumes(containers[r].state) && uuid in used[r] {
        return true;
      }
    }
    attributed := false;
  }

  /** The check right before a launch. */
  method GPUsAvailable(view: View, containers: Containers, wanted: seq<Id>, job: Id) returns (ok: bool)
    ensures ok == Available(view, containers, wanted, job)
  {
    hide Uses, Suspicious;
    var used, gpus := Snapshot(view, containers);
    if !view.ready {
      return false;
    }
    var known: map<Id, bool> := map[];
    var occupied: set<Id> := {};
    for i := 0 to |gpus|
      invariant forall u :: (u in known && known[u]) <==> Healthy(view.gpus[..i], u)
      invariant forall u :: u in known ==> exists k :: 0 <= k < i && view.gpus[k].uuid == u
      invariant forall u :: u in occupied <==> SuspectAmong(view, containers, i, u)
    {
      HealthyOneMore(view.gpus, i);
      known := known[gpus[i].uuid := gpus[i].healthy];
      if gpus[i].unknown {
        occupied := occupied + {gpus[i].uuid};
      }
    }
    assert view.gpus[..|gpus|] == view.gpus;
    ghost var suspects := occupied;
    var todo := containers.Keys;
    while todo != {}
      invariant todo <= containers.Keys
      invariant forall u ::
        u in occupied <==> u in suspects || OthersAmong(view, containers, job, containers.Keys - todo, u)
      decreases todo
    {
      var r := Pick(todo);
      OneMoreContainer(view, containers, job, containers.Keys - todo, r);
      assert containers.Keys - (todo - {r}) == (containers.Keys - todo) + {r};
      todo := todo - {r};
      if Consumes(containers[r].state) && !containers[r].ClassifiedFor(job) {
        occupied := occupied + (set u | u in used[r]);
      }
    }
    ghost var others := occupied;
    for i := 0 to |view.processes|
      invariant forall u :: u in occupied <==> u in others || StrangersAmong(view, containers, job, i, u)
    {
      var p := view.processes[i];
      StrangerOneMore(view, containers, job, i);
      if p.container.None? || !Own(containers, job, p.container.value) {
        occupied := occupied + {p.gpu};
      }
    }
    OccupiedAre(view, containers, job);
    var checked := UniqueIds(wanted);
    for i := 0 to |checked|
      invariant forall u :: u in checked[..i] ==> Healthy(view.gpus, u) && !Occupied(view, containers, job, u)
    {
      assert checked[..i + 1] == checked[..i] + [checked[i]];
      var uuid := checked[i];
      if uuid !in known || !known[uuid] || uuid in occupied {
        assert uuid in checked;
        return false;
      }
    }
    assert checked[..|checked|] == checked;
    ok := true;
  }

  ghost predicate SuspectAmong(view: View, containers: Containers, n: nat, u: Id)
    requires n <= |view.gpus|
  {
    exists k :: 0 <= k < n && view.gpus[k].uuid == u && Suspicious(view, containers, view.gpus[k])
  }

  ghost predicate OthersAmong(view: View, containers: Containers, job: Id, refs: set<ContainerRef>, u: Id) {
    exists r :: r in refs && r in containers && Consumes(containers[r].state) && !Own(containers, job, r)
      && Uses(view, r, containers[r], u)
  }

  ghost predicate StrangersAmong(view: View, containers: Containers, job: Id, n: nat, u: Id)
    requires n <= |view.processes|
  {
    exists k :: 0 <= k < n && view.processes[k].gpu == u && Stranger(containers, job, view.processes[k])
  }

  /** The process belongs to no active container of the job itself. */
  predicate Stranger(containers: Containers, job: Id, p: DeviceProcess) {
    p.container.None? || !Own(containers, job, p.container.value)
  }

  lemma HealthyOneMore(gpus: seq<Device>, i: nat)
    requires i < |gpus|
    ensures forall u ::
      Healthy(gpus[..i + 1], u) <==> (if gpus[i].uuid == u then gpus[i].healthy else Healthy(gpus[..i], u))
  {
    var more := gpus[..i + 1];
    assert more[..|more| - 1] == gpus[..i] && more[|more| - 1] == gpus[i] && more != [];
    forall u ensures Healthy(more, u) <==> (if gpus[i].uuid == u then gpus[i].healthy else Healthy(gpus[..i], u)) {
    }
  }

  lemma OneMoreContainer(view: View, containers: Containers, job: Id, refs: set<ContainerRef>, r: ContainerRef)
    requires r in containers
    ensures forall u :: OthersAmong(view, containers, job, refs + {r}, u) <==>
      (OthersAmong(view, containers, job, refs, u)
       || (Consumes(containers[r].state) && !containers[r].ClassifiedFor(job) && Uses(view, r, containers[r], u)))
  {
    hide Uses;
  }

  lemma StrangerOneMore(view: View, containers: Containers, job: Id, i: nat)
    requires i < |view.processes|
    ensures forall u :: StrangersAmong(view, containers, job, i + 1, u) <==>
      (StrangersAmong(view, containers, job, i, u)
       || (view.processes[i].gpu == u && Stranger(containers, job, view.processes[i])))
  {
    hide Stranger;
    forall u
      ensures StrangersAmong(view, containers, job, i + 1, u) <==>
        (StrangersAmong(view, containers, job, i, u)
         || (view.processes[i].gpu == u && Stranger(containers, job, view.processes[i])))
    {
      if StrangersAmong(view, containers, job, i, u) {
        var k :| 0 <= k < i && view.processes[k].gpu == u && Stranger(containers, job, view.processes[k]);
        assert view.processes[k].gpu == u;
      }
    }
  }

  lemma OccupiedAre(view: View, containers: Containers, job: Id)
    ensures forall u :: Occupied(view, containers, job, u) <==>
      (SuspectAmong(view, containers, |view.gpus|, u) || OthersAmong(view, containers, job, containers.Keys, u)
       || StrangersAmong(view, containers, job, |view.processes|, u))
  {
    hide Uses, Suspicious, Own, Stranger;
  }

  // ---------------------------------------------------------------- The container runtime

  datatype Host = Host(containers: Containers, rejectStarts: nat)

  datatype Reply = Launched(container: ContainerRef) | Ended(stopped: Option<ContainerRef>) | Refused

  /** Idempotent by job: an existing container of the job is returned as it is. A failed save undoes the creation. */
  function Start(h: Host, job: Id, gpus: seq<Id>, saved: bool): (Host, Reply) {
    if Managed(job) in h.containers then (h, Launched(Managed(job)))
    else if h.rejectStarts > 0 then (h.(rejectStarts := h.rejectStarts - 1), Refused)
    else if !saved then (h, Refused)
    else (h.(containers := h.containers[Managed(job) := RuntimeContainer(Running, Labelled, job, gpus, [], false)]),
          Launched(Managed(job)))
  }

  /** Without a target the job's own container is stopped; a target that is somebody else's is refused. */
  function Stop(h: Host, job: Id, target: Option<ContainerRef>, saved: bool): (Host, Reply) {
    if target.Some? && target.value != Managed(job) then
      (h, if target.value in h.containers then Refused else Ended(None))
    else if Managed(job) !in h.containers then (h, Ended(None))
    else if !saved then (h, Refused)
    else (h.(containers := h.containers[Managed(job) := h.containers[Managed(job)].(state := Exited)]),
          Ended(Some(Managed(job))))
  }

  /** What the runtime's own containers look like; nobody else uses its exact label. */
  predicate Proper(r: ContainerRef, c: RuntimeContainer) {
    match r
    case External(_) => c.tag != Labelled
    case Managed(job) =>
      c.tag == Labelled && c.jobId == job && c.indexes == [] && !c.unbounded
      && (c.state == Running || c.state == Exited)
  }

  ghost predicate Share(containers: Containers, i: Id, j: Id, uuid: Id) {
    && Managed(i) in containers && Managed(j) in containers && containers[Managed(i)].state == Running
    && containers[Managed(j)].state == Running
    && uuid != NO_ID && uuid in containers[Managed(i)].gpus && uuid in containers[Managed(j)].gpus
  }

  ghost predicate HostOk(h: Host) {
    && (forall r :: r in h.containers ==> Proper(r, h.containers[r]))
    && (forall i, j, u :: i != j ==> !Share(h.containers, i, j, u))
  }

  datatype Order =
    | StartOrder(job: Id, image: bool, gpus: seq<Id>, view: View, saved: bool)
    | StopOrder(job: Id, target: Option<ContainerRef>, saved: bool)
    | OtherOrder

  /** The serial executor: check, then act, under one lock. */
  ghost function Execute(h: Host, order: Order): (Host, Reply) {
    match order
    case StartOrder(job, image, gpus, view, saved) =>
      if job == NO_ID || !image || gpus == [] || !Available(view, h.containers, gpus, job) then (h, Refused)
      else Start(h, job, gpus, saved)
    case StopOrder(job, target, saved) => if job == NO_ID then (h, Refused) else Stop(h, job, target, saved)
    case OtherOrder => (h, Refused)
  }

  class Executor {
    var containers: Containers
    var rejectStarts: nat

    function Contents(): Host
      reads this
    {
      Host(containers, rejectStarts)
    }

    ghost predicate Valid()
      reads this
    {
      HostOk(Contents())
    }

    constructor (external: map<Id, RuntimeContainer>, rejectStarts: nat)
      requires forall n :: n in external ==> external[n].tag != Labelled
      ensures Valid()
      ensures containers == (map n | n in external :: External(n) := external[n])
    {
      containers := map n | n in external :: External(n) := external[n];
      this.rejectStarts := rejectStarts;
    }

    method StartManagedContainer(job: Id, gpus: seq<Id>, saved: bool) returns (reply: Reply)
      requires Valid()
      modifies this
      ensures (Contents(), reply) == Start(old(Contents()), job, gpus, saved)
    {
      var todo := containers.Keys;
      while todo != {}
        invariant todo <= containers.Keys && Contents() == old(Contents())
        invariant Managed(job) in containers ==> Managed(job) in todo
        decreases todo
      {
        var r := Pick(todo);
        todo := todo - {r};
        if containers[r].tag == Labelled && containers[r].jobId == job {
          assert Proper(r, containers[r]);
          return Launched(r);
        }
        if r == Managed(job) { assert Proper(r, containers[r]); }
      }
      if rejectStarts > 0 {
        rejectStarts := rejectStarts - 1;
        return Refused;
      }
      var before := containers;
      containers := containers[Managed(job) := RuntimeContainer(Running, Labelled, job, gpus, [], false)];
      if !saved {
        containers := containers - {Managed(job)};
        assert containers == before;
        return Refused;
      }
      reply := Launched(Managed(job));
    }

    method StopManagedJob(job: Id, target: Option<ContainerRef>, saved: bool) returns (reply: Reply)
      requires Valid()
      modifies this
      ensures (Contents(), reply) == Stop(old(Contents()), job, target, saved)
    {
      ghost var start := containers;
      var todo := containers.Keys;
      while todo != {}
        invariant todo <= containers.Keys && containers == start && rejectStarts == old(rejectStarts)
        invariant forall r :: r in containers && r !in todo ==>
          if target.Some? then r != target.value else r != Managed(job)
        decreases todo
      {
        var r := Pick(todo);
        todo := todo - {r};
        assert Proper(r, containers[r]);
        if target.Some? && target.value != r {
          continue;
        }
        if containers[r].tag != Labelled || containers[r].jobId != job {
          if target == Some(r) {
            return Refused;
          }
          continue;
        }
        var before := containers[r];
        containers := containers[r := before.(state := Exited)];
        if !saved {
          containers := containers[r := before];
          assert containers == start;
          return Refused;
        }
        return Ended(Some(r));
      }
      reply := Ended(None);
    }

    method ExecuteOrder(order: Order) returns (reply: Reply)
      requires Valid()
      modifies this
      ensures Valid() && (Contents(), reply) == Execute(old(Contents()), order)
    {
      hide Available, HostOk;
      ghost var before := Contents();
      ExecuteKeepsHostOk(before, order);
      match order
      case StartOrder(job, image, gpus, view, saved) =>
        if job == NO_ID || !image || gpus == [] {
          return Refused;
        }
        var available := GPUsAvailable(view, containers, gpus, job);
        if !available {
          return Refused;
        }
        reply := StartManagedContainer(job, gpus, saved);
      case StopOrder(job, target, saved) =>
        if job == NO_ID {
          return Refused;
        }
        reply := StopManagedJob(job, target, saved);
      case OtherOrder =>
        reply := Refused;
    }
  }

  // ---------------------------------------------------------------- Exclusivity

  /** Whatever a container's configuration names is protected: named, or swallowed by protecting every known device. */
  lemma NamedIsUsed(view: View, r: ContainerRef, c: RuntimeContainer, uuid: Id)
    requires Consumes(c.state) && Named(c, view.gpus, uuid) && Known(view.gpus, uuid)
    ensures Uses(view, r, c, uuid)
  {
  }

  lemma {:induction false} HealthyIsKnown(gpus: seq<Device>, uuid: Id)
    requires Healthy(gpus, uuid)
    ensures Known(gpus, uuid)
  {
    var last := gpus[|gpus| - 1];
    if last.uuid == uuid {
      assert last in gpus;
    } else {
      HealthyIsKnown(gpus[..|gpus| - 1], uuid);
    }
  }

  lemma StartKeepsHostOk(h: Host, job: Id, gpus: seq<Id>, view: View, saved: bool)
    requires HostOk(h) && Available(view, h.containers, gpus, job)
    ensures HostOk(Start(h, job, gpus, saved).0)
  {
    hide Occupied, Unbounded, Suspicious;
    var next := Start(h, job, gpus, saved).0;
    if next.containers != h.containers {
      forall i, u | i != job && Managed(i) in h.containers && h.containers[Managed(i)].state == Running && u != NO_ID
        && u in gpus
        ensures u !in h.containers[Managed(i)].gpus
      {
        WantedIsFree(view, h.containers, gpus, job, Managed(i), u);
        assert Proper(Managed(i), h.containers[Managed(i)]);
      }
      forall i, j, u | i != j ensures !Share(next.containers, i, j, u) {
        assert !Share(h.containers, i, j, u);
      }
    }
  }

  /** A device that passed the check is named by no active container of anybody else. */
  lemma WantedIsFree(view: View, containers: Containers, wanted: seq<Id>, job: Id, r: ContainerRef, uuid: Id)
    requires Available(view, containers, wanted, job) && uuid in wanted && uuid != NO_ID
    requires r in containers && Consumes(containers[r].state) && !containers[r].ClassifiedFor(job)
    ensures !Uses(view, r, containers[r], uuid) && !Named(containers[r], view.gpus, uuid)
  {
    hide Suspicious, Unbounded, Configured, Named;
    HealthyIsKnown(view.gpus, uuid);
    if Named(containers[r], view.gpus, uuid) {
      NamedIsUsed(view, r, containers[r], uuid);
    }
  }

  lemma ExecuteKeepsHostOk(h: Host, order: Order)
    requires HostOk(h)
    ensures HostOk(Execute(h, order).0)
  {
    hide Available, HostOk, Start, Stop;
    match order
    case StartOrder(job, image, gpus, view, saved) =>
      if Available(view, h.containers, gpus, job) { StartKeepsHostOk(h, job, gpus, view, saved); }
    case StopOrder(job, target, saved) => StopKeepsHostOk(h, job, target, saved);
    case OtherOrder =>
  }

  lemma StopKeepsHostOk(h: Host, job: Id, target: Option<ContainerRef>, saved: bool)
    requires HostOk(h)
    ensures HostOk(Stop(h, job, target, saved).0)
  {
    var next := Stop(h, job, target, saved).0;
    forall i, j, u | i != j ensures !Share(next.containers, i, j, u) {
      assert !Share(h.containers, i, j, u);
    }
    if Managed(job) in h.containers { assert Proper(Managed(job), h.containers[Managed(job)]); }
  }

  ghost function ExecuteAll(h: Host, orders: seq<Order>): Host {
    if orders == [] then h else Execute(ExecuteAll(h, orders[..|orders| - 1]), orders[|orders| - 1]).0
  }

  /** In every run of the serial executor, whatever it observes, active managed containers of different jobs hold
      disjoint devices. */
  lemma {:induction false} HostExclusivity(h: Host, orders: seq<Order>)
    requires HostOk(h)
    ensures HostOk(ExecuteAll(h, orders))
    ensures forall i, j, u :: i != j ==> !Share(ExecuteAll(h, orders).containers, i, j, u)
  {
    hide HostOk, Execute;
    if orders != [] {
      HostExclusivity(h, orders[..|orders| - 1]);
      ExecuteKeepsHostOk(ExecuteAll(h, orders[..|orders| - 1]), orders[|orders| - 1]);
    }
    HostOkMeans(ExecuteAll(h, orders));
  }

  lemma HostOkMeans(h: Host)
    requires HostOk(h)
    ensures forall i, j, u :: i != j ==> !Share(h.containers, i, j, u)
  {
  }

  /** An active container the inventory takes for the job's own although the runtime does not. */
  predicate Impostor(containers: Containers, job: Id, r: ContainerRef) {
    r in containers && Consumes(containers[r].state) && containers[r].tag == OtherCase && containers[r].jobId == job
      && job != NO_ID
  }

  /** The start really creates a container. */
  ghost predicate Creates(h: Host, order: Order) {
    order.StartOrder? && Managed(order.job) !in h.containers && Managed(order.job) in Execute(h, order).0.containers
  }

  /** A newly created container takes no device that an active container uses by identifier, by index, or without
      bound, and none with a process on it, provided the container is not an impostor and the process not attributed
      to one. */
  lemma NewContainerIsAlone(h: Host, order: Order, uuid: Id)
    requires HostOk(h) && Creates(h, order) && uuid in order.gpus && uuid != NO_ID
    ensures Healthy(order.view.gpus, uuid)
    ensures forall r ::
      r in h.containers && Consumes(h.containers[r].state) && !Impostor(h.containers, order.job, r) ==>
        !Uses(order.view, r, h.containers[r], uuid) && !Named(h.containers[r], order.view.gpus, uuid)
    ensures forall p :: p in order.view.processes && p.gpu == uuid ==>
      p.container.Some? && Impostor(h.containers, order.job, p.container.value)
  {
    hide Suspicious, Unbounded, Configured, Named;
    OwnAreImpostors(h, order.job);
    forall r | r in h.containers && Consumes(h.containers[r].state) && !Impostor(h.containers, order.job, r)
      ensures !Uses(order.view, r, h.containers[r], uuid) && !Named(h.containers[r], order.view.gpus, uuid)
    {
      WantedIsFree(order.view, h.containers, order.gpus, order.job, r, uuid);
    }
  }

  lemma OwnAreImpostors(h: Host, job: Id)
    requires HostOk(h) && Managed(job) !in h.containers && job != NO_ID
    ensures forall r :: Own(h.containers, job, r) <==> Impostor(h.containers, job, r)
  {
    forall r | r in h.containers ensures Proper(r, h.containers[r]) {
    }
  }

  /** Nobody else is on a device the order names: no active container uses it and no process runs on it. */
  ghost predicate Alone(h: Host, order: Order)
    requires order.StartOrder?
  {
    && (forall r, u :: r in h.containers && Consumes(h.containers[r].state) && u in order.gpus && u != NO_ID ==>
          !Uses(order.view, r, h.containers[r], u))
    && (forall p :: p in order.view.processes && p.gpu in order.gpus ==> p.gpu == NO_ID)
  }

  /** No impostor uses a device the order names. */
  ghost predicate NoImpostor(h: Host, order: Order)
    requires order.StartOrder?
  {
    forall r, u :: Impostor(h.containers, order.job, r) && u in order.gpus && u != NO_ID ==>
      !Uses(order.view, r, h.containers[r], u)
  }

  lemma ProcessIsUse(view: View, p: DeviceProcess)
    requires p in view.processes && p.gpu != NO_ID
    ensures p.container.Some? ==> forall c :: Uses(view, p.container.value, c, p.gpu)
  {
    hide Configured;
  }

  /** A new container is alone on its devices exactly when no impostor uses one of them. */
  lemma AloneExactly(h: Host, order: Order)
    requires HostOk(h) && Creates(h, order)
    ensures Alone(h, order) <==> NoImpostor(h, order)
  {
    hide Configured, Named, Healthy, Execute, HostOk;
    if NoImpostor(h, order) {
      forall r, u | r in h.containers && Consumes(h.containers[r].state) && u in order.gpus && u != NO_ID
        ensures !Uses(order.view, r, h.containers[r], u)
      {
        NewContainerIsAlone(h, order, u);
      }
      forall p | p in order.view.processes && p.gpu in order.gpus ensures p.gpu == NO_ID {
        if p.gpu != NO_ID {
          ProcessIsUse(order.view, p);
          NewContainerIsAlone(h, order, p.gpu);
        }
      }
    }
  }

  /** The labels disagree on case: the check ignores a foreign container, the runtime launches beside it. */
  lemma ImpostorSharesGPU()
    ensures var legacy := RuntimeContainer(Running, OtherCase, 7, [5], [], false);
      var h := Host(map[External(1) := legacy], 0);
      var view := View(true, [Device(5, 0, true, 0, 0.0, false)], [], 256, 5.0);
      var next := Execute(h, StartOrder(7, true, [5], view, true)).0;
      && HostOk(h) && Managed(7) in next.containers && External(1) in next.containers
      && Consumes(next.containers[External(1)].state) && Consumes(next.containers[Managed(7)].state)
      && 5 in next.containers[External(1)].gpus && 5 in next.containers[Managed(7)].gpus
  {
    var legacy := RuntimeContainer(Running, OtherCase, 7, [5], [], false);
    var containers: Containers := map[External(1) := legacy];
    var device := Device(5, 0, true, 0, 0.0, false);
    var view := View(true, [device], [], 256, 5.0);
    assert Own(containers, 7, External(1));
    assert !Busy(view, device);
    assert Healthy(view.gpus, 5);
    assert Available(view, containers, [5], 7);
  }
}
