/** Which commands a poll hands out, in what order, and when they may be handed out again. */
module LeaseFairness {
  import opened Domain
  import opened Accounting
  import opened StoreSpec
  import opened StoreSteps
  import opened StoreInvariant
  import opened StoreRuns
  import opened StepEffects
  import opened RepositoryLoops
  import C = CommandProtocol
  import Sorting

  ghost predicate Keyed(st: State) {
    forall k :: k in st.commands ==> st.commands[k].id == k
  }

  /** Created earlier, or at the same time under a lower identifier. */
  predicate Older(c: Command, d: Command) {
    c.createdAt < d.createdAt || (c.createdAt == d.createdAt && c.id < d.id)
  }

  lemma OlderMeans(c: Command, d: Command)
    ensures CommandBefore(c, d) <==> Older(c, d)
  {
  }

  /** Everything in the batch is leasable and older than every leasable command left out. */
  ghost predicate Oldest(st: State, agentId: Id, now: Time, batch: seq<Command>) {
    && (forall c :: c in batch ==> c in LeasableCommands(st, agentId, now))
    && (forall c, d :: c in batch && d in LeasableCommands(st, agentId, now) && d !in batch ==> Older(c, d))
  }

  ghost predicate Everything(st: State, agentId: Id, now: Time, batch: seq<Command>) {
    forall c :: c in LeasableCommands(st, agentId, now) ==> c in batch
  }

  /** The batch is the oldest part of what may be leased, oldest first: everything when it fits in the limit, otherwise
      exactly the limit, and nothing left out is older than anything handed out. */
  lemma OldestFirst(st: State, agentId: Id, now: Time, limit: int)
    requires Keyed(st)
    ensures var batch := LeaseBatch(st, agentId, now, limit);
      forall i, k :: 0 <= i < k < |batch| ==> Older(batch[i], batch[k])
    ensures Oldest(st, agentId, now, LeaseBatch(st, agentId, now, limit))
    ensures var batch, n := LeaseBatch(st, agentId, now, limit), if limit <= 0 then 10 else limit;
      |batch| == n || (|batch| < n && Everything(st, agentId, now, batch))
  {
    hide Leasable, CommandBefore, Older, LeasableCommands, Sorting.StrictTotalOn;
    var all := Sorting.Elements(LeasableCommands(st, agentId, now));
    LeasableAreOrdered(st, agentId, now, all);
    Sorting.SortSorts(CommandBefore, all);
    Sorting.SortPermutes(CommandBefore, all);
    var sorted, n := Sorting.Sort(CommandBefore, all), if limit <= 0 then 10 else limit;
    PrefixPrecedes(sorted, if |sorted| > n then n else |sorted|);
    assert sorted[..|sorted|] == sorted;
  }

  lemma PrefixPrecedes(sorted: seq<Command>, n: nat)
    requires n <= |sorted| && Sorting.Sorted(CommandBefore, sorted)
    ensures forall i, k :: 0 <= i < k < n ==> Older(sorted[..n][i], sorted[..n][k])
    ensures forall c :: c in sorted[..n] ==> c in sorted
    ensures forall c, d :: c in sorted[..n] && d in sorted && d !in sorted[..n] ==> Older(c, d)
  {
    hide CommandBefore, Older;
    var front := sorted[..n];
    forall c, d ensures CommandBefore(c, d) <==> Older(c, d) {
      OlderMeans(c, d);
    }
    assert forall k :: 0 <= k < n ==> front[k] == sorted[k] && sorted[k] in front;
    forall c, d | c in front && d in sorted && d !in front ensures Older(c, d) {
      var i :| 0 <= i < n && front[i] == c;
      var j :| 0 <= j < |sorted| && sorted[j] == d;
      assert CommandBefore(sorted[i], sorted[j]);
    }
  }

  // ---------------------------------------------------------------- What may be handed out

  /** A launch may be handed out: its host is ready and heard from, its job is alive and of the host's organisation
      and waits for this very command, the booked window if there is one has begun and not ended, and every booked GPU
      is there, healthy and held for the job. */
  predicate LaunchReady(st: State, c: Command, now: Time) {
    c.agentId in st.servers && c.jobId in st.jobs
    && var host, job := st.servers[c.agentId], st.jobs[c.jobId];
       && host.status == Online && !host.drained && host.caps.Some? && host.caps.value.ready
       && now - host.lastHeartbeat <= st.offlineAfter
       && host.inventoryReceived != ZERO_TIME && now - host.inventoryReceived <= st.offlineAfter
       && job.status !in {Stopped, Succeeded, Failed, Cancelled} && job.org == host.org != NO_ID
       && job.assignment.Some? && job.assignment.value.commandId == c.id
       && var a := job.assignment.value;
          && (a.start == ZERO_TIME || a.end <= a.start || a.start <= now < a.end)
          && (forall u :: u in a.gpus ==> exists g :: g in host.gpus && g.uuid == u)
          && (forall g :: g in host.gpus && g.uuid in a.gpus ==>
                g.healthy && g.state in {Reserved, Allocated} && g.assignedJob == job.id)
  }

  /** A stop may be handed out unless the launch can still take effect: still waiting, or out without an answer while
      the window is unknown or has not ended. */
  predicate StopReady(st: State, c: Command, now: Time) {
    c.jobId in st.jobs && st.jobs[c.jobId].assignment.Some? ==>
      var a := st.jobs[c.jobId].assignment.value;
      a.commandId in st.commands ==>
        var launch := st.commands[a.commandId];
        launch.status != Pending
        && (launch.status == Delivered ==> a.start != ZERO_TIME && a.start < a.end <= now)
  }

  /** A command may be handed out to its own host when it waits or its lease has run out, and when it is ready. */
  lemma LeasableExactly(st: State, agentId: Id, c: Command, now: Time)
    requires Valid(st) && agentId in st.servers
    ensures Leasable(st, agentId, c, now)
       <==> && c.agentId == agentId
            && (c.status == Pending || (c.status == Delivered && c.leaseUntil.Some? && c.leaseUntil.value < now))
            && (c.kind == StartCommand ==> LaunchReady(st, c, now))
            && (c.kind == StopCommand ==> StopReady(st, c, now))
  {
    hide Valid;
  }

  /** A poll of a known host marks what it hands out, once more and with a new lease, and touches nothing else. */
  lemma PollDelivers(st: State, step: Step, id: Id)
    requires step.LeaseStep? && id in st.commands
    ensures step.agentId !in st.servers ==> Outcome(st, step) == Err(NotFound)
    ensures step.agentId in st.servers ==>
      var next, c := Apply(st, step), st.commands[id];
      && next.jobs == st.jobs && next.servers == st.servers && next.commands.Keys == st.commands.Keys
      && id in next.commands
      && var d := next.commands[id];
         if c in LeaseBatch(st, step.agentId, step.at, step.limit)
         then
           && d.status == Delivered && d.attempts == c.attempts + 1
           && d.deliveredAt == Some(step.at) && d.leaseUntil == Some(step.at + step.lease)
           && d.id == c.id && d.agentId == c.agentId && d.kind == c.kind && d.jobId == c.jobId
           && d.createdAt == c.createdAt && d.completedAt == c.completedAt
         else d == c
  {
    hide LeaseBatch;
  }

  // ---------------------------------------------------------------- A running lease

  /** Acknowledged, or out on a lease until that time. */
  predicate Held(c: Command, until: Time) {
    Acknowledged(c) || (c.status == Delivered && c.leaseUntil == Some(until))
  }

  lemma HeldIsNotLeasable(st: State, agentId: Id, c: Command, until: Time, now: Time)
    requires Held(c, until) && now <= until
    ensures !Leasable(st, agentId, c, now)
  {
    hide StartDeliverable, StopDeliverable;
  }

  lemma LeasedIsHeld(st: State, step: Step, id: Id)
    requires step.LeaseStep? && step.agentId in st.servers && id in st.commands
    requires st.commands[id] in LeaseBatch(st, step.agentId, step.at, step.limit)
    ensures id in Apply(st, step).commands && Held(Apply(st, step).commands[id], step.at + step.lease)
  {
    hide LeaseBatch;
  }

  lemma PollKeepsHeld(st: State, step: Step, id: Id, until: Time)
    requires step.LeaseStep? && step.at <= until && id in st.commands && Held(st.commands[id], until)
    ensures id in Apply(st, step).commands && Held(Apply(st, step).commands[id], until)
    ensures step.agentId in st.servers ==> st.commands[id] !in LeaseBatch(st, step.agentId, step.at, step.limit)
  {
    hide LeaseBatch, Leasable;
    HeldIsNotLeasable(st, step.agentId, st.commands[id], until, step.at);
    if step.agentId in st.servers && st.commands[id] in LeaseBatch(st, step.agentId, step.at, step.limit) {
      LeasedIsLeasable(st, step.agentId, step.at, step.limit, st.commands[id]);
    }
  }

  lemma StopKeepsHeld(st: State, step: Step, id: Id, until: Time)
    requires step.StopStep? && Keyed(st) && id in st.commands && Held(st.commands[id], until)
    ensures id in Apply(st, step).commands && Held(Apply(st, step).commands[id], until)
  {
    hide Finish, Transition, StopTermination;
    if step.jobId in st.jobs {
      var job := st.jobs[step.jobId].(termination := StopTermination(st.jobs[step.jobId], step.at));
      FinishEffectOnJobs(st, Transition(job, Cancelled, CancelledBeforeExecution, step.at), step.at);
      if job.assignment.Some? {
        var start := CommandAt(st.commands, job.assignment.value.commandId);
        FinishEffectOnJobs(
          st.(commands := st.commands[start.id := start.(status := FailedCommand, completedAt := Some(step.at))]),
          Transition(job, Cancelled, CancelledBeforeDelivery, step.at), step.at);
      }
    }
  }

  lemma StatusKeepsCommands(st: State, step: Step)
    requires step.StatusStep?
    ensures Apply(st, step).commands == st.commands
  {
    hide Finish, Transition, StatusIgnored;
    if step.jobId in st.jobs {
      FinishEffectOnJobs(st, Transition(st.jobs[step.jobId], step.status, step.reason, step.at), step.at);
    }
  }

  lemma AckKeepsHeld(st: State, step: Step, id: Id, until: Time)
    requires step.AckStep? && id in st.commands && Held(st.commands[id], until)
    ensures id in Apply(st, step).commands && Held(Apply(st, step).commands[id], until)
  {
    hide Finish, AckJob;
    if step.commandId in st.commands && st.commands[step.commandId].jobId in st.jobs {
      var command := Acknowledge(st.commands[step.commandId], step.ack, step.at);
      FinishEffectOnJobs(st.(commands := st.commands[step.commandId := command]),
                         AckJob(st.jobs[command.jobId], command, step.ack, step.at).0, step.at);
    }
  }

  lemma StepKeepsHeld(st: State, step: Step, id: Id, until: Time)
    requires Keyed(st) && id in st.commands && Held(st.commands[id], until)
    requires step.LeaseStep? ==> step.at <= until
    ensures id in Apply(st, step).commands && Held(Apply(st, step).commands[id], until)
  {
    hide Held, SetJobStatus, RequestStop, AckCommand, LeaseCommands, PlacementMatches, Dispatchable, Reconcile,
         NormalizeGPUs, Replan, ForeignGPU;
    match step
    case LeaseStep(_, _, _, _) => PollKeepsHeld(st, step, id, until);
    case StopStep(_, _, _) => StopKeepsHeld(st, step, id, until);
    case StatusStep(_, _, _, _) => StatusKeepsCommands(st, step);
    case AckStep(_, _, _, _) => AckKeepsHeld(st, step, id, until);
    case _ =>
  }

  lemma ValidIsKeyed(st: State)
    requires Valid(st)
    ensures Keyed(st)
  {
  }

  lemma {:induction false} HeldLasts(st: State, steps: seq<Step>, id: Id, until: Time)
    requires Valid(st) && LegalRun(st, steps) && id in st.commands && Held(st.commands[id], until)
    requires forall j :: 0 <= j < |steps| && steps[j].LeaseStep? ==> steps[j].at <= until
    ensures id in Run(st, steps).commands && Held(Run(st, steps).commands[id], until)
  {
    hide Valid, Legal, Apply, Held;
    if steps != [] {
      var front := steps[..|steps| - 1];
      PrefixIsLegal(st, steps, |front|);
      RunKeepsValid(st, front);
      HeldLasts(st, front, id, until);
      ValidIsKeyed(Run(st, front));
      StepKeepsHeld(Run(st, front), steps[|front|], id, until);
    }
  }

  /** Once a poll handed a command out, no later poll of any run hands it out again, to anybody, while every poll in
      between reads the clock within the lease. */
  lemma LeaseIsExclusive(offlineAfter: int, steps: seq<Step>, i: nat, k: nat, id: Id)
    requires LegalRun(Initial(offlineAfter), steps) && i < k < |steps| && steps[i].LeaseStep? && steps[k].LeaseStep?
    requires var before := Run(Initial(offlineAfter), steps[..i]);
      steps[i].agentId in before.servers && id in before.commands
      && before.commands[id] in LeaseBatch(before, steps[i].agentId, steps[i].at, steps[i].limit)
    requires forall j :: i < j <= k && steps[j].LeaseStep? ==> steps[j].at <= steps[i].at + steps[i].lease
    ensures var later := Run(Initial(offlineAfter), steps[..k]);
      && id in later.commands && Held(later.commands[id], steps[i].at + steps[i].lease)
      && (steps[k].agentId in later.servers ==>
            later.commands[id] !in LeaseBatch(later, steps[k].agentId, steps[k].at, steps[k].limit))
  {
    hide Run, LegalRun, Legal, Valid, Initial, LeaseBatch, Held, Apply;
    var init, until := Initial(offlineAfter), steps[i].at + steps[i].lease;
    PrefixIsLegal(init, steps, i + 1);
    ReachableIsValid(offlineAfter, steps[..i + 1]);
    C.RunStep(init, steps, i);
    LeasedIsHeld(Run(init, steps[..i]), steps[i], id);
    PrefixIsLegal(init, steps, k);
    SuffixRun(init, steps[..k], i + 1);
    assert steps[..k][..i + 1] == steps[..i + 1] && steps[..k][i + 1..] == steps[i + 1..k];
    HeldLasts(Run(init, steps[..i + 1]), steps[i + 1..k], id, until);
    PollKeepsHeld(Run(init, steps[..k]), steps[k], id, until);
  }

  /** What is left of a run after its first steps is a run of its own. */
  lemma {:induction false} SuffixRun(st: State, steps: seq<Step>, from: nat)
    requires LegalRun(st, steps) && from <= |steps|
    ensures LegalRun(Run(st, steps[..from]), steps[from..])
    ensures Run(Run(st, steps[..from]), steps[from..]) == Run(st, steps)
    decreases |steps|
  {
    hide Legal, Apply, Run, LegalRun;
    if from == |steps| {
      assert steps[..from] == steps && steps[from..] == [];
      EmptyRun(Run(st, steps));
    } else {
      var n := |steps| - 1;
      var front := steps[..n];
      PrefixIsLegal(st, steps, n);
      C.StepIsLegal(st, steps, n);
      C.RunStep(st, steps, n);
      SuffixRun(st, front, from);
      assert front[..from] == steps[..from] && steps[..n + 1] == steps;
      assert steps[from..] == front[from..] + [steps[n]];
      RunExtends(Run(st, steps[..from]), front[from..], steps[n]);
    }
  }
}
