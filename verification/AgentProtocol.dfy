/** From the wire to the repository: validation of an inventory report, which is what makes every stored report
  sound. */
module AgentProtocol {
  import opened Domain
  import opened Calendar
  import opened StoreSpec
  import opened StoreSteps

  datatype WireGPU = WireGPU(uuid: Id, index: int, model: Id, memTotal: int, memUsed: int, healthy: bool, unknown: bool)
  datatype WireContainer = WireContainer(id: Id, state: ContainerState, origin: Origin, jobId: Id, gpus: seq<Id>,
                                         exitCode: Option<int>)
  datatype WireReport = WireReport(caps: Option<Capabilities>, sequence: int, observedAt: Time,
                                   gpus: seq<WireGPU>, containers: seq<WireContainer>, processes: seq<GPUProcess>)

  /** An Agent that predates capabilities observes completely but cannot prove that it can execute. */
  const LEGACY := Capabilities(false, false, true, true, true, 0, false, false, false)

  function Sources(w: WireReport): Capabilities {
    var caps := if w.caps.Some? then w.caps.value else LEGACY;
    if caps.nvml then caps else caps.(gpuInventory := false)
  }

  /** What a source could not read is not reported at all. */
  function Readable(w: WireReport): WireReport {
    w.(gpus := if Sources(w).gpuInventory then w.gpus else [],
       processes := if Sources(w).gpuInventory then w.processes else [],
       containers := if Sources(w).docker then w.containers else [])
  }

  predicate GPUOk(g: WireGPU) {
    g.uuid != NO_ID && g.index >= 0 && g.memTotal > 0 && g.memUsed >= 0
  }

  predicate WireOk(w: WireReport) {
    && (forall g :: g in w.gpus ==> GPUOk(g))
    && (forall i, j :: 0 <= i < j < |w.gpus| ==> w.gpus[i].uuid != w.gpus[j].uuid)
    && (forall c :: c in w.containers ==> c.id != NO_ID)
    && (forall p :: p in w.processes ==> p.pid > 0 && p.gpu != NO_ID)
  }

  function GPUOf(g: WireGPU): GPU {
    GPU(g.uuid, g.model, g.memTotal, g.memUsed, g.healthy, if g.unknown then OccupiedUnknown else Free, NO_ID)
  }

  function ContainerOf(c: WireContainer): Container {
    Container(c.id, c.state, c.origin, c.jobId, c.gpus, c.exitCode)
  }

  function ReportOf(w: WireReport): Report {
    var r := Readable(w);
    Report(Some(Sources(w).(gpuCount := |r.gpus|).Normalize()), w.sequence, w.observedAt, ZERO_TIME,
           seq(|r.gpus|, i requires 0 <= i < |r.gpus| => GPUOf(r.gpus[i])),
           seq(|r.containers|, i requires 0 <= i < |r.containers| => ContainerOf(r.containers[i])), r.processes)
  }

  method InventoryToDomain(w: WireReport) returns (r: Result<Report>)
    ensures r == if WireOk(Readable(w)) then Ok(ReportOf(w)) else Err(InvalidInput)
  {
    hide Capabilities.Normalize;
    var caps := if w.caps.Some? then w.caps.value else LEGACY;
    var report := w;
    if !caps.nvml {
      caps := caps.(gpuInventory := false);
    }
    if !caps.gpuInventory {
      report := report.(gpus := [], processes := []);
    }
    if !caps.docker {
      report := report.(containers := []);
    }
    assert report == Readable(w);
    caps := caps.(gpuCount := |report.gpus|).Normalize();
    var gpus, valid := ConvertGPUs(report.gpus);
    if !valid {
      return Err(InvalidInput);
    }
    var containers := [];
    for i := 0 to |report.containers|
      invariant |containers| == i && forall k :: 0 <= k < i ==> containers[k] == ContainerOf(report.containers[k])
      invariant forall k :: 0 <= k < i ==> report.containers[k].id != NO_ID
    {
      if report.containers[i].id == NO_ID {
        assert report.containers[i] in report.containers;
        return Err(InvalidInput);
      }
      containers := containers + [ContainerOf(report.containers[i])];
    }
    for i := 0 to |report.processes|
      invariant forall k :: 0 <= k < i ==> report.processes[k].pid > 0 && report.processes[k].gpu != NO_ID
    {
      if report.processes[i].pid <= 0 || report.processes[i].gpu == NO_ID {
        assert report.processes[i] in report.processes;
        return Err(InvalidInput);
      }
    }
    assert gpus == ReportOf(w).gpus && containers == ReportOf(w).containers;
    r := Ok(Report(Some(caps), w.sequence, w.observedAt, ZERO_TIME, gpus, containers, report.processes));
  }

  method ConvertGPUs(wire: seq<WireGPU>) returns (gpus: seq<GPU>, ok: bool)
    ensures ok <==>
      (forall g :: g in wire ==> GPUOk(g)) && forall i, j :: 0 <= i < j < |wire| ==> wire[i].uuid != wire[j].uuid
    ensures ok ==> |gpus| == |wire| && forall i :: 0 <= i < |wire| ==> gpus[i] == GPUOf(wire[i])
  {
    gpus := [];
    var seen: set<Id> := {};
    for i := 0 to |wire|
      invariant |gpus| == i && forall k :: 0 <= k < i ==> gpus[k] == GPUOf(wire[k]) && GPUOk(wire[k])
      invariant forall u :: u in seen <==> exists k :: 0 <= k < i && wire[k].uuid == u
      invariant forall k, j :: 0 <= k < j < i ==> wire[k].uuid != wire[j].uuid
    {
      var gpu := wire[i];
      if !GPUOk(gpu) {
        assert gpu in wire;
        return gpus, false;
      }
      if gpu.uuid in seen {
        return gpus, false;
      }
      seen := seen + {gpu.uuid};
      gpus := gpus + [GPUOf(gpu)];
    }
    ok := true;
  }

  /** The devices count when the driver and its inventory could be read, or when the Agent predates capabilities. */
  predicate ReadsDevices(w: WireReport) {
    w.caps.Some? ==> w.caps.value.nvml && w.caps.value.gpuInventory
  }

  predicate ReadsContainers(w: WireReport) {
    w.caps.Some? ==> w.caps.value.docker
  }

  /** A report is accepted exactly when what could be read is well formed: named devices, each once, with a size and a
      use, named containers, and processes with a number and a device. */
  lemma AcceptedExactly(w: WireReport)
    ensures WireOk(Readable(w))
       <==> && (ReadsDevices(w) ==>
                  && (forall g :: g in w.gpus ==> g.uuid != NO_ID && g.index >= 0 && g.memTotal >= 1 && g.memUsed >= 0)
                  && (forall i, k :: 0 <= i < k < |w.gpus| ==> w.gpus[i].uuid != w.gpus[k].uuid)
                  && (forall p :: p in w.processes ==> p.pid >= 1 && p.gpu != NO_ID))
            && (ReadsContainers(w) ==> forall c :: c in w.containers ==> c.id != NO_ID)
  {
  }

  /** What an accepted report becomes, source by source. */
  lemma ReportOutcome(w: WireReport)
    ensures var r := ReportOf(w);
      && r.sequence == w.sequence && r.observedAt == w.observedAt && r.receivedAt == ZERO_TIME && r.caps.Some?
      && r.processes == (if ReadsDevices(w) then w.processes else [])
      && |r.gpus| == (if ReadsDevices(w) then |w.gpus| else 0)
      && (forall i :: 0 <= i < |r.gpus| ==>
            var g, h := w.gpus[i], r.gpus[i];
            && h.uuid == g.uuid && h.model == g.model && h.memTotal == g.memTotal && h.memUsed == g.memUsed
            && h.healthy == g.healthy && h.state == (if g.unknown then OccupiedUnknown else Free)
            && h.assignedJob == NO_ID)
      && |r.containers| == (if ReadsContainers(w) then |w.containers| else 0)
      && (forall i :: 0 <= i < |r.containers| ==>
            var c, d := w.containers[i], r.containers[i];
            && d.id == c.id && d.state == c.state && d.origin == c.origin && d.jobId == c.jobId && d.gpus == c.gpus
            && d.exitCode == c.exitCode)
      && r.caps.value.docker == ReadsContainers(w) && r.caps.value.gpuInventory == ReadsDevices(w)
      && (r.caps.value.ready <==>
            && w.caps.Some? && w.caps.value.operational && w.caps.value.platformSupported
            && w.caps.value.docker && w.caps.value.nvml && w.caps.value.gpuInventory && |w.gpus| > 0
            && w.caps.value.containerSupport && w.caps.value.dockerSupported)
  {
  }

  /** Every report the repository is given satisfies what its invariant needs. */
  lemma AcceptedReportsAreSound(w: WireReport)
    requires WireOk(Readable(w))
    ensures SoundReport(ReportOf(w))
    ensures forall g :: g in ReportOf(w).gpus ==>
      (g.state == Free || g.state == OccupiedUnknown) && g.assignedJob == NO_ID
  {
    var r, report := Readable(w), ReportOf(w);
    forall g | g in report.gpus ensures SoundGPU(g) && (g.state == Free || g.state == OccupiedUnknown)
      && g.assignedJob == NO_ID {
      var i :| 0 <= i < |report.gpus| && report.gpus[i] == g;
      assert r.gpus[i] in r.gpus;
    }
  }

  /** A failed source is marked and carries nothing, a host is ready to execute only on a complete report that shows a
      GPU, and an Agent without capabilities never is. */
  lemma PartialReportsAreMarked(w: WireReport)
    ensures var report := ReportOf(w);
      && report.caps.Some? && report.caps.value.gpuCount == |report.gpus|
      && (!GPUValid(report) ==> report.gpus == [] && report.processes == [])
      && (!DockerValid(report) ==> report.containers == [])
      && (report.caps.value.ready ==> Complete(report) && report.gpus != [] && w.caps.Some?)
  {
  }
}
