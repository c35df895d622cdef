/** The publication protocol inside repository runs: one job's uploaders, time-outs, recovery and warnings interleaved
  with every other repository step. */
module PublicationRuns {
  import opened Domain
  import opened StoreSpec
  import opened StoreSteps
  import opened StoreInvariant
  import opened StoreRuns
  import opened TrainingFrame
  import P = Publication

  /** The repository, and what the actors of one job have read so far. */
  datatype System = System(st: State, world: P.World)

  datatype Move = Repository(step: Step) | Publish(action: P.Action)

  /** The training update an actor asks the repository for, if it asks for one. */
  function UpdateOf(w: P.World, action: P.Action, id: Id, timeout: int): Option<Step>
    requires w.versions != [] && P.LegalAction(w, action)
  {
    match action
    case Elsewhere(_) => None
    case Begin(seen, upload, kind, step, now) =>
      var job := w.versions[seen];
      if !P.MayBegin(job, kind, now, timeout) then None
      else Some(TrainingStep(id, job.training.revision, P.Begun(job.training, upload, kind, now), now))
    case Finish(upload, put, cancelled, latest, at) =>
      if upload !in w.uploads then None
      else
        var u := w.uploads[upload];
        Some(TrainingStep(id, u.training.revision,
                          if P.PutHolds(u, put, cancelled, w.versions[latest], at)
                          then P.Published(u.training, u.kind, put.value, at, u.step)
                          else P.Abandoned(u.training, u.kind), at))
    case Recover(seen, now) =>
      var job := w.versions[seen];
      if !P.RecoveryDue(job, now, timeout) then None
      else Some(TrainingStep(id, job.training.revision, P.Abandoned(job.training, job.training.uploadKind), now))
    case Request(seen, now) =>
      var job := w.versions[seen];
      if !P.WarningDue(job, now, timeout) then None
      else Some(TrainingStep(id, job.training.revision, job.training.(checkpoint := CheckpointRequested), now))
  }

  /** Only the job's actors update its training. A step that adds to the job's log is applied less than the grace
      after it read the clock, seen from the latest time an actor used. */
  ghost predicate LegalMove(s: System, move: Move, id: Id) {
    s.world.versions != [] && id in s.st.jobs
    && match move
       case Repository(step) =>
         && Legal(s.st, step) && !(step.TrainingStep? && step.jobId == id)
         && id in Apply(s.st, step).jobs
         && (Apply(s.st, step).jobs[id].events == s.st.jobs[id].events || s.world.clock < StampOf(step) + P.GRACE)
       case Publish(action) => P.LegalAction(s.world, action) && !action.Elsewhere?
  }

  /** A move that is not legal is left out. */
  ghost function Moved(s: System, move: Move, id: Id, timeout: int): System {
    if !LegalMove(s, move, id) then s
    else
      match move
      case Repository(step) =>
        System(Apply(s.st, step), P.Act(s.world, P.Elsewhere(Apply(s.st, step).jobs[id]), timeout))
      case Publish(action) =>
        System(match UpdateOf(s.world, action, id, timeout)
               case Some(step) => Apply(s.st, step)
               case None => s.st,
               P.Act(s.world, action, timeout))
  }

  ghost function MovedAll(s: System, moves: seq<Move>, id: Id, timeout: int): System {
    if moves == [] then s
    else Moved(MovedAll(s, moves[..|moves| - 1], id, timeout), moves[|moves| - 1], id, timeout)
  }

  /** The repository holds the newest version of the job. */
  ghost predicate InStep(s: System, id: Id) {
    Valid(s.st) && P.Sound(s.world) && id in s.st.jobs && s.st.jobs[id] == P.Current(s.world)
  }

  // ---------------------------------------------------------------- Every move

  lemma SwapIsUpdate(st: State, w: P.World, id: Id, expected: int, next: Training, at: Time)
    requires w.versions != [] && id in st.jobs && st.jobs[id] == P.Current(w)
    ensures var after := Apply(st, TrainingStep(id, expected, next, at));
      id in after.jobs && P.Swap(w, expected, next, at).versions != []
      && after.jobs[id] == P.Current(P.Swap(w, expected, next, at))
    ensures TrainingConflict(P.Current(w), expected, next) ==> Apply(st, TrainingStep(id, expected, next, at)) == st
  {
    hide TrainingConflict, NextTraining;
  }

  /** The repository performs the actor's update exactly as the protocol says. */
  lemma UpdateIsSwap(s: System, action: P.Action, id: Id, timeout: int)
    requires InStep(s, id) && P.LegalAction(s.world, action) && !action.Elsewhere?
    ensures var next := Moved(s, Publish(action), id, timeout);
      id in next.st.jobs && next.world.versions != [] && next.st.jobs[id] == P.Current(next.world)
  {
    hide Valid, P.Sound, P.MayBegin, P.PutHolds, P.RecoveryDue, P.WarningDue, P.Begun, P.Published, P.Abandoned,
         TrainingConflict, NextTraining, Apply, P.Prompt;
    P.SoundIsNonEmpty(s.world);
    match UpdateOf(s.world, action, id, timeout)
    case Some(step) =>
      SwapIsUpdate(s.st, s.world, id, step.expected, step.next, step.at);
      if action.Finish? {
        SwapIsUpdate(s.st, s.world.(uploads := s.world.uploads - {action.id}), id, step.expected, step.next, step.at);
      }
    case None =>
  }

  lemma PublishKeepsStep(s: System, action: P.Action, id: Id, timeout: int)
    requires InStep(s, id) && P.LegalAction(s.world, action) && !action.Elsewhere?
    ensures InStep(Moved(s, Publish(action), id, timeout), id)
  {
    hide Valid, P.Sound, P.Act, P.LegalAction, Apply, Progress;
    P.SoundIsNonEmpty(s.world);
    UpdateIsSwap(s, action, id, timeout);
    P.ActKeepsSound(s.world, action, timeout);
    match UpdateOf(s.world, action, id, timeout)
    case Some(step) => StepKeepsValid(s.st, step);
    case None =>
  }

  lemma NewEventsArePrompt(j: Job, k: Job, clock: Time, at: Time)
    requires SameOutputs(j, k, at) && (k.events == j.events || clock < at + P.GRACE)
    ensures j.events <= k.events && P.Prompt(k.events[|j.events|..], clock)
  {
  }

  lemma RepositoryKeepsStep(s: System, step: Step, id: Id, timeout: int)
    requires InStep(s, id) && LegalMove(s, Repository(step), id)
    ensures InStep(Moved(s, Repository(step), id, timeout), id)
  {
    hide Valid, P.Sound, Apply, Legal, Progress, P.Untouched, SameOutputs;
    P.SoundIsNonEmpty(s.world);
    StepKeepsValid(s.st, step);
    StepIsSwapOrElsewhere(s.st, step, id);
    NewEventsArePrompt(s.st.jobs[id], Apply(s.st, step).jobs[id], s.world.clock, StampOf(step));
    P.ActKeepsSound(s.world, P.Elsewhere(Apply(s.st, step).jobs[id]), timeout);
  }

  lemma MoveKeepsStep(s: System, move: Move, id: Id, timeout: int)
    requires InStep(s, id)
    ensures InStep(Moved(s, move, id, timeout), id)
    ensures s.world.versions <= Moved(s, move, id, timeout).world.versions
  {
    hide InStep, P.LegalAction, Apply, Legal, P.Sound, Valid, UpdateOf, Job.RequestedWindow;
    if LegalMove(s, move, id) {
      match move
      case Repository(step) =>
        RepositoryKeepsStep(s, step, id, timeout);
      case Publish(action) =>
        PublishKeepsStep(s, action, id, timeout);
    }
  }

  // ---------------------------------------------------------------- Every run

  /** The repository steps among the moves. */
  ghost function StepsOf(s: System, moves: seq<Move>, id: Id, timeout: int): seq<Step> {
    if moves == [] then []
    else
      var front, last := moves[..|moves| - 1], moves[|moves| - 1];
      var before, at := StepsOf(s, front, id, timeout), MovedAll(s, front, id, timeout);
      if !LegalMove(at, last, id) then before
      else
        match last
        case Repository(step) => before + [step]
        case Publish(action) =>
          match UpdateOf(at.world, action, id, timeout)
          case Some(step) => before + [step]
          case None => before
  }

  lemma TrainingIsLegal(s: System, action: P.Action, id: Id, timeout: int)
    requires s.world.versions != [] && P.LegalAction(s.world, action)
    ensures forall step, st :: UpdateOf(s.world, action, id, timeout) == Some(step) ==> Legal(st, step)
  {
  }

  /** A run of moves is a legal repository run, and the repository always holds the newest version. */
  lemma {:induction false} MovesAreARun(s: System, moves: seq<Move>, id: Id, timeout: int)
    requires InStep(s, id)
    ensures var last, steps := MovedAll(s, moves, id, timeout), StepsOf(s, moves, id, timeout);
      InStep(last, id) && LegalRun(s.st, steps) && last.st == Run(s.st, steps)
        && s.world.versions <= last.world.versions
  {
    hide InStep, Legal, Apply, UpdateOf, P.Act, P.LegalAction, Run, LegalRun;
    if moves == [] {
      EmptyRun(s.st);
    } else {
      var front, last := moves[..|moves| - 1], moves[|moves| - 1];
      MovesAreARun(s, front, id, timeout);
      var mid, steps := MovedAll(s, front, id, timeout), StepsOf(s, front, id, timeout);
      MoveKeepsStep(mid, last, id, timeout);
      if LegalMove(mid, last, id) {
        match last
        case Repository(step) => RunExtends(s.st, steps, step);
        case Publish(action) =>
          TrainingIsLegal(mid, action, id, timeout);
          match UpdateOf(mid.world, action, id, timeout) {
            case Some(step) => RunExtends(s.st, steps, step);
            case None =>
          }
      }
    }
  }

  /** The job as the repository holds it after the first `k` moves. */
  ghost function JobAfter(s: System, moves: seq<Move>, k: nat, id: Id, timeout: int): Job
    requires InStep(s, id) && k <= |moves|
  {
    MovesAreARun(s, moves[..k], id, timeout);
    MovedAll(s, moves[..k], id, timeout).st.jobs[id]
  }

  lemma VersionsGrow(s: System, moves: seq<Move>, i: nat, k: nat, id: Id, timeout: int)
    requires InStep(s, id) && i <= k <= |moves|
    ensures MovedAll(s, moves[..i], id, timeout).world.versions <= MovedAll(s, moves[..k], id, timeout).world.versions
    decreases k
  {
    hide InStep, Moved;
    if i < k {
      assert moves[..k][..k - 1] == moves[..k - 1];
      VersionsGrow(s, moves, i, k - 1, id, timeout);
      MovesAreARun(s, moves[..k - 1], id, timeout);
      MoveKeepsStep(MovedAll(s, moves[..k - 1], id, timeout), moves[k - 1], id, timeout);
    }
  }

  lemma LaterFollows(s: System, moves: seq<Move>, i: nat, k: nat, id: Id, timeout: int)
    requires InStep(s, id) && i <= k <= |moves|
    ensures P.Follows(JobAfter(s, moves, i, id, timeout), JobAfter(s, moves, k, id, timeout))
    ensures P.OutputsOk(JobAfter(s, moves, k, id, timeout), MovedAll(s, moves[..k], id, timeout).world.clock)
  {
    hide P.Follows, P.OutputsOk, P.Granted, MovedAll, Valid, StepsOf, LegalRun, Run;
    MovesAreARun(s, moves[..i], id, timeout);
    MovesAreARun(s, moves[..k], id, timeout);
    VersionsGrow(s, moves, i, k, id, timeout);
  }

  /** From a freshly admitted job of any reachable state, through any moves: the run of moves is a legal repository
      run, in which a READY artifact keeps its URI, a checkpoint URI is never emptied, the deadline never moves later,
      FAILED has no URI, AVAILABLE and READY have one, and every published output is stamped before the deadline. */
  lemma PublicationSafetyOfRuns(offlineAfter: int, earlier: seq<Step>, moves: seq<Move>, i: nat, k: nat, id: Id,
                                timeout: int)
    requires LegalRun(Initial(offlineAfter), earlier)
    requires var st := Run(Initial(offlineAfter), earlier); id in st.jobs && P.Fresh(st.jobs[id])
    requires i <= k <= |moves|
    ensures var st := Run(Initial(offlineAfter), earlier);
      var s := System(st, P.Start(st.jobs[id]));
      && InStep(s, id)
      && LegalRun(st, StepsOf(s, moves, id, timeout))
      && Run(st, StepsOf(s, moves, id, timeout)) == MovedAll(s, moves, id, timeout).st
      && var before, now := JobAfter(s, moves, i, id, timeout), JobAfter(s, moves, k, id, timeout);
         var a, b := before.training, now.training;
         && (a.artifact == ArtifactReady ==> b.artifact == ArtifactReady && b.artifactURI == a.artifactURI)
         && (a.checkpointURI != NO_ID ==> b.checkpointURI != NO_ID)
         && P.Deadline(now) <= P.Deadline(before)
         && (b.checkpoint == CheckpointFailed ==> b.checkpointURI == NO_ID)
         && (b.checkpoint == CheckpointAvailable ==> b.checkpointURI != NO_ID)
         && (b.artifact == ArtifactReady ==> b.artifactURI != NO_ID && b.artifactAt < P.Deadline(now))
         && (b.checkpointURI != NO_ID ==> b.checkpointAt < P.Deadline(now))
  {
    hide P.Deadline, Run, LegalRun, Valid, P.Sound, MovedAll, StepsOf, JobAfter;
    ReachableIsValid(offlineAfter, earlier);
    var st := Run(Initial(offlineAfter), earlier);
    P.StartIsSound(st.jobs[id]);
    var s := System(st, P.Start(st.jobs[id]));
    MovesAreARun(s, moves, id, timeout);
    LaterFollows(s, moves, i, k, id, timeout);
  }
}
