/** Building blocks for concrete runs: idle hosts that register and report, and jobs that are submitted. */
module Scenario {
  import opened Domain
  import opened Accounting
  import opened Calendar
  import opened StoreSpec
  import opened StoreSteps
  import opened StoreInvariant
  import opened StoreRuns

  const TIMEOUT := 1000
  const TENANT: Id := 5
  const ARRIVAL: Time := 10

  function Card(uuid: Id): GPU {
    GPU(uuid, NO_ID, 1000, 0, true, Free, NO_ID)
  }

  function Registered(id: Id): Server {
    Server(id, id, TENANT, None, map[], Online, false, ARRIVAL, ZERO_TIME, 0, [], [])
  }

  function FullReport(gpus: seq<GPU>): Report {
    Report(Some(Capabilities(true, true, true, true, true, 1, true, true, true)), 1, ARRIVAL, ARRIVAL, gpus, [], [])
  }

  function Ready(id: Id, gpus: seq<GPU>): Server {
    Registered(id).(caps := FullReport(gpus).caps, inventoryReceived := ARRIVAL, version := 1, gpus := gpus)
  }

  /** A new job. */
  function Submitted(id: Id, necessity: Necessity, neededAt: NeededAt, ttlSeconds: int, gpuCount: int): Job {
    Job(id, TENANT, InferenceWorkload, necessity, Important, neededAt, ttlSeconds,
        Resources(NoProfile, false, [], NO_ID, gpuCount, 0), map[],
        ARRIVAL, ARRIVAL, Queued, Given(1), NoTermination, None, NO_ID, None, Decision(Competitive, 0, ZERO_TIME),
        Training(CheckpointNone, NO_ID, ZERO_TIME, 0, ZERO_TIME, ArtifactNone, NO_ID, ZERO_TIME, NO_ID, NO_ID, 0, NO_ID,
                 NoKind, ZERO_TIME),
        [Event(id, Queued, Given(1), ARRIVAL)])
  }

  /** Idle cards stay free when nobody holds anything. */
  lemma IdleStaysFree(id: Id, gpus: seq<GPU>)
    requires forall g :: g in gpus ==> g == Card(g.uuid)
    ensures NormalizeGPUs(id, gpus, [], [], map[]) == gpus
  {
    hide NormalizeGPU;
    forall i | 0 <= i < |gpus| ensures NormalizeGPU(id, gpus[i], [], [], map[]) == gpus[i] {
      assert gpus[i] in gpus;
      IdleCard(id, gpus[i].uuid);
    }
  }

  lemma IdleCard(id: Id, uuid: Id)
    ensures NormalizeGPU(id, Card(uuid), [], [], map[]) == Card(uuid)
  {
    FreeExactly(id, Card(uuid), [], [], map[]);
  }

  lemma NothingToReconcile(id: Id, report: Report, commands: map<Id, Command>)
    ensures Reconcile(map[], id, report, commands) == map[]
  {
  }

  /** A host registers and sends its first inventory before any job exists. */
  lemma HostArrives(st: State, steps: seq<Step>, id: Id, gpus: seq<GPU>)
    requires LegalRun(st, steps) && Run(st, steps).jobs == map[]
    requires id !in Run(st, steps).machines && id !in Run(st, steps).servers
    requires DistinctUUIDs(gpus) && forall g :: g in gpus ==> g == Card(g.uuid) && g.uuid != NO_ID
    requires forall s, g, k :: s in Run(st, steps).servers && g in gpus && k in Run(st, steps).servers[s].gpus ==>
      g.uuid != k.uuid
    ensures var now, all := Run(st, steps),
      steps + [UpsertStep(Registered(id))] + [InventoryStep(id, FullReport(gpus))];
      && LegalRun(st, all)
      && Run(st, all) == now.(servers := now.servers[id := Ready(id, gpus)], machines := now.machines[id := id])
  {
    hide Run, LegalRun, NormalizeGPUs, Reconcile;
    RunExtends(st, steps, UpsertStep(Registered(id)));
    RunExtends(st, steps + [UpsertStep(Registered(id))], InventoryStep(id, FullReport(gpus)));
    IdleStaysFree(id, gpus);
    NothingToReconcile(id, FullReport(gpus), Run(st, steps).commands);
  }

  lemma JobArrives(st: State, steps: seq<Step>, job: Job)
    requires LegalRun(st, steps) && job.id !in Run(st, steps).jobs && Admitted(job)
    ensures LegalRun(st, steps + [CreateStep(job)])
    ensures Run(st, steps + [CreateStep(job)]) == Run(st, steps).(jobs := Run(st, steps).jobs[job.id := job])
  {
    hide Run, LegalRun;
    RunExtends(st, steps, CreateStep(job));
  }
}
