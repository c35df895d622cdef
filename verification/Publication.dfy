/** Publication of training outputs: competing uploaders, time-outs, recovery and checkpoint warnings meet only in a
  compare-and-swap on the training revision, each acting on whatever version of the job it last read. */
module Publication {
  import opened Domain
  import opened Calendar
  import opened StoreSpec

  const GRACE := 30 * SECOND

  // ---------------------------------------------------------------- Deadlines and warnings

  predicate Ends(e: Event) {
    e.status == Stopping || e.status.Terminal()
  }

  function EventDeadline(events: seq<Event>, deadline: Time): Time {
    if events == [] then deadline
    else
      var rest := EventDeadline(events[..|events| - 1], deadline);
      var e := events[|events| - 1];
      if Ends(e) && e.at + GRACE < rest then e.at + GRACE else rest
  }

  /** Publication may finish within the STOP grace, bounded by the lifecycle events and the window. */
  function Deadline(job: Job): Time {
    EventDeadline(job.events, job.RequestedWindow().end + GRACE)
  }

  method TrainingDeadline(job: Job) returns (deadline: Time)
    ensures deadline == Deadline(job)
  {
    deadline := job.RequestedWindow().end + GRACE;
    for i := 0 to |job.events|
      invariant deadline == EventDeadline(job.events[..i], job.RequestedWindow().end + GRACE)
    {
      var e := job.events[i];
      assert job.events[..i + 1][..i] == job.events[..i] && job.events[..i + 1][i] == e;
      if e.status == Stopping || e.status.Terminal() {
        var t := e.at + GRACE;
        if t < deadline {
          deadline := t;
        }
      }
    }
    assert job.events[..|job.events|] == job.events;
  }

  /** The earliest of the end of the window and every stop or end of the job, each plus the grace. */
  lemma {:induction false} DeadlineExactly(events: seq<Event>, end: Time)
    ensures EventDeadline(events, end) <= end
    ensures forall e :: e in events && Ends(e) ==> EventDeadline(events, end) <= e.at + GRACE
    ensures EventDeadline(events, end) == end
      || exists e :: e in events && Ends(e) && EventDeadline(events, end) == e.at + GRACE
  {
    if events != [] {
      DeadlineExactly(events[..|events| - 1], end);
      assert events == events[..|events| - 1] + [events[|events| - 1]];
    }
  }

  /** More history can only bring the deadline forward, and only to an added event's time plus the grace. */
  lemma DeadlineShrinks(before: seq<Event>, after: seq<Event>, end: Time, at: Time)
    requires before <= after
    ensures EventDeadline(after, end) <= EventDeadline(before, end)
    ensures at < EventDeadline(before, end) && Prompt(after[|before|..], at) ==> at < EventDeadline(after, end)
  {
    DeadlineExactly(before, end);
    DeadlineExactly(after, end);
    assert after == before + after[|before|..];
  }

  function Smaller(a: int, b: int): int {
    if a < b then a else b
  }

  function Larger(a: int, b: int): int {
    if a < b then b else a
  }

  /** The whole part of a fraction of a duration. */
  function Share(length: int, fraction: real): int {
    (length as real * fraction).Floor
  }

  /** The checkpoint warning: a fraction of the window before its end, within bounds, never before the start. */
  method WarningAt(w: TimeWindow, fraction: real, minLead: int, maxLead: int) returns (at: Time)
    requires w.Valid() && fraction > 0.0 && minLead > 0 && maxLead > 0
    ensures w.start <= at < w.end
    ensures w.end - at == Smaller(w.end - w.start, Smaller(maxLead, Larger(minLead, Share(w.end - w.start, fraction))))
  {
    var lead := Share(w.end - w.start, fraction);
    if lead < minLead {
      lead := minLead;
    }
    if lead > maxLead {
      lead := maxLead;
    }
    at := w.end - lead;
    if at < w.start {
      at := w.start;
    }
  }

  // ---------------------------------------------------------------- What each actor computes from a version

  /** The lease of the running upload has not timed out. */
  predicate Leased(t: Training, now: Time, timeout: int) {
    t.uploadId != NO_ID && now - t.uploadStarted < timeout
  }

  /** Authentication aside: a launched job, inside its window or the grace. */
  predicate SessionOpen(job: Job, now: Time) {
    job.RequestedWindow().Valid() && job.RequestedWindow().start <= now < Deadline(job)
    && job.assignment.Some? && job.assignment.value.commandId != NO_ID
  }

  function Begun(t: Training, id: Id, kind: UploadKind, now: Time): Training {
    var leased := t.(uploadId := id, uploadKind := kind, uploadStarted := now);
    if kind == CheckpointKind then leased.(checkpoint := CheckpointSaving) else leased.(artifact := ArtifactSaving)
  }

  function Fallback(t: Training): Training {
    t.(checkpoint := if t.checkpointURI != NO_ID then CheckpointAvailable else CheckpointFailed)
  }

  function Published(t: Training, kind: UploadKind, uri: Id, at: Time, step: int): Training {
    (if kind == CheckpointKind
     then t.(checkpoint := CheckpointAvailable, checkpointURI := uri, checkpointAt := at, step := step)
     else t.(artifact := ArtifactReady, artifactURI := uri, artifactAt := at)).(uploadId := NO_ID, uploadKind := NoKind)
  }

  function Abandoned(t: Training, kind: UploadKind): Training {
    (if kind == CheckpointKind then Fallback(t)
     else t.(artifact := ArtifactFailed)).(uploadId := NO_ID, uploadKind := NoKind)
  }

  predicate RecoveryDue(job: Job, now: Time, timeout: int) {
    job.training.uploadId != NO_ID && (now >= job.training.uploadStarted + timeout || now >= Deadline(job))
  }

  predicate WarningDue(job: Job, now: Time, timeout: int) {
    var t := job.training;
    job.workload == TrainingWorkload && job.status == RunningJob && !Leased(t, now, timeout)
    && t.warningAt != ZERO_TIME && t.warningAt <= now < job.RequestedWindow().end
    && t.checkpoint != CheckpointSaving && t.checkpoint != CheckpointRequested
    && t.checkpointAt < t.warningAt
  }

  // ---------------------------------------------------------------- The world: every version the job ever had

  /** An uploader between its two repository calls. */
  datatype Upload = Upload(kind: UploadKind, step: int, training: Training, deadline: Time)

  datatype World = World(versions: seq<Job>, clock: Time, uploads: map<Id, Upload>)

  /** `seen` and `latest` are the versions an actor had read; `put` is what the object store answered. */
  datatype Action =
    | Elsewhere(next: Job)
    | Begin(seen: nat, id: Id, kind: UploadKind, step: int, now: Time)
    | Finish(id: Id, put: Option<Id>, cancelled: bool, latest: nat, at: Time)
    | Recover(seen: nat, now: Time)
    | Request(seen: nat, now: Time)

  function Current(w: World): Job
    requires w.versions != []
  {
    w.versions[|w.versions| - 1]
  }

  function Tick(w: World, at: Time): World {
    w.(clock := if w.clock < at then at else w.clock)
  }

  /** The repository's compare-and-swap. */
  function Swapped(job: Job, expected: int, next: Training, at: Time): Job {
    job.(training := NextTraining(job.training, expected, next), updatedAt := at)
  }

  function Swap(w: World, expected: int, next: Training, at: Time): World
    requires w.versions != []
  {
    if TrainingConflict(Current(w), expected, next) then w
    else w.(versions := w.versions + [Swapped(Current(w), expected, next, at)])
  }

  function UploadDeadline(job: Job, now: Time, timeout: int): Time {
    if Deadline(job) < now + timeout then Deadline(job) else now + timeout
  }

  predicate MayBegin(job: Job, kind: UploadKind, now: Time, timeout: int) {
    SessionOpen(job, now) && !Leased(job.training, now, timeout)
    && !(kind == ArtifactKind && job.training.artifact == ArtifactReady)
  }

  predicate PutHolds(upload: Upload, put: Option<Id>, cancelled: bool, latest: Job, at: Time) {
    at < Deadline(latest) && put.Some? && put.value != NO_ID && !cancelled && at < upload.deadline
  }

  function Act(w: World, action: Action, timeout: int): World
    requires w.versions != []
    requires action.Begin? || action.Recover? || action.Request? ==> action.seen < |w.versions|
    requires action.Finish? ==> action.latest < |w.versions|
  {
    match action
    case Elsewhere(next) => w.(versions := w.versions + [next])
    case Begin(seen, id, kind, step, now) =>
      var job := w.versions[seen];
      if !MayBegin(job, kind, now, timeout) then w
      else
        var next := Begun(job.training, id, kind, now);
        if TrainingConflict(Current(w), job.training.revision, next) then w
        else
          var swapped := Swap(w, job.training.revision, next, now);
          Tick(swapped.(uploads := w.uploads[id := Upload(kind, step, Current(swapped).training,
                                                          UploadDeadline(job, now, timeout))]), now)
    case Finish(id, put, cancelled, latest, at) =>
      if id !in w.uploads then w
      else
        var u := w.uploads[id];
        var next := if PutHolds(u, put, cancelled, w.versions[latest], at)
                    then Published(u.training, u.kind, put.value, at, u.step) else Abandoned(u.training, u.kind);
        Tick(Swap(w.(uploads := w.uploads - {id}), u.training.revision, next, at), at)
    case Recover(seen, now) =>
      var job := w.versions[seen];
      if !RecoveryDue(job, now, timeout) then w
      else Tick(Swap(w, job.training.revision, Abandoned(job.training, job.training.uploadKind), now), now)
    case Request(seen, now) =>
      var job := w.versions[seen];
      if !WarningDue(job, now, timeout) then w
      else Tick(Swap(w, job.training.revision, job.training.(checkpoint := CheckpointRequested), now), now)
  }

  /** Every event added to the log is stamped less than the grace before the latest time anybody acted on: no step is
      applied half a minute after it read the clock. */
  predicate Prompt(added: seq<Event>, at: Time) {
    forall e :: e in added ==> at < e.at + GRACE
  }

  predicate Untouched(j: Job, k: Job) {
    SameRequest(j, k) && k.workload == j.workload && k.training == j.training && j.events <= k.events
  }

  predicate LegalAction(w: World, action: Action)
    requires w.versions != []
  {
    match action
    case Elsewhere(next) => Untouched(Current(w), next) && Prompt(next.events[|Current(w).events|..], w.clock)
    case Begin(seen, id, kind, _, _) => seen < |w.versions| && id != NO_ID && id !in w.uploads && kind != NoKind
    case Finish(_, _, _, latest, at) =>
      latest < |w.versions| && w.versions[latest].events <= Current(w).events
      && Prompt(Current(w).events[|w.versions[latest].events|..], at)
    case Recover(seen, _) => seen < |w.versions|
    case Request(seen, _) => seen < |w.versions|
  }

  // ---------------------------------------------------------------- What holds of every version and between any two

  /** Never withdrawn, never emptied, never postponed. */
  predicate Follows(a: Job, b: Job) {
    && SameRequest(a, b) && b.workload == a.workload && a.events <= b.events
    && a.training.revision <= b.training.revision
    && (a.training.revision == b.training.revision ==> a.training == b.training)
    && (a.training.artifact == ArtifactReady ==>
            b.training.artifact == ArtifactReady && b.training.artifactURI == a.training.artifactURI)
    && (a.training.checkpointURI != NO_ID ==> b.training.checkpointURI != NO_ID)
    && b.training.warningAt == a.training.warningAt && b.training.resumeURI == a.training.resumeURI
    && Deadline(b) <= Deadline(a)
  }

  predicate OutputsOk(job: Job, clock: Time) {
    var t := job.training;
    && (t.checkpoint == CheckpointFailed ==> t.checkpointURI == NO_ID)
    && (t.checkpoint == CheckpointAvailable ==> t.checkpointURI != NO_ID)
    && (t.artifact == ArtifactReady ==> t.artifactURI != NO_ID)
    && (t.uploadId != NO_ID ==> t.uploadKind != NoKind)
    && (t.uploadId != NO_ID && t.uploadKind == ArtifactKind ==> t.artifact == ArtifactSaving)
    && (t.checkpointURI != NO_ID ==> t.checkpointAt < Deadline(job) && t.checkpointAt <= clock)
    && (t.artifact == ArtifactReady ==> t.artifactAt < Deadline(job) && t.artifactAt <= clock)
  }

  ghost predicate History(versions: seq<Job>) {
    versions != [] && forall i, j :: 0 <= i <= j < |versions| ==> Follows(versions[i], versions[j])
  }

  /** An upload in progress remembers the training of the version that granted its lease. */
  predicate Granted(versions: seq<Job>, id: Id, u: Upload) {
    id != NO_ID && u.kind != NoKind && u.training.uploadId == id && u.training.uploadKind == u.kind
    && exists job :: job in versions && job.training == u.training
  }

  ghost predicate Sound(w: World) {
    && History(w.versions) && OutputsOk(Current(w), w.clock)
    && (forall id :: id in w.uploads ==> Granted(w.versions, id, w.uploads[id]))
  }

  // ---------------------------------------------------------------- The compare-and-swap has no ABA

  lemma FollowsTransitively(a: Job, b: Job, c: Job)
    requires Follows(a, b) && Follows(b, c)
    ensures Follows(a, c)
  {
    hide Deadline;
  }

  lemma FollowsItself(job: Job)
    ensures Follows(job, job)
  {
  }

  lemma HistoryGrows(versions: seq<Job>, next: Job)
    requires History(versions) && Follows(versions[|versions| - 1], next)
    ensures History(versions + [next])
  {
    hide Follows;
    var all := versions + [next];
    forall i, j | 0 <= i <= j < |all| ensures Follows(all[i], all[j]) {
      if j == |versions| {
        FollowsItself(next);
        if i < j {
          assert Follows(versions[i], versions[|versions| - 1]);
          FollowsTransitively(versions[i], versions[|versions| - 1], next);
        }
      }
    }
  }

  /** If the swap would succeed for a version somebody read, that version's training is still the current one. */
  lemma NoABA(w: World, seen: Job, next: Training)
    requires History(w.versions) && seen in w.versions
    requires !TrainingConflict(Current(w), seen.training.revision, next)
    ensures Current(w).training == seen.training
  {
    hide Deadline;
    var i :| 0 <= i < |w.versions| && w.versions[i] == seen;
    assert Follows(w.versions[i], Current(w));
  }

  // ---------------------------------------------------------------- One swap

  /** A new training state that withdraws nothing. */
  predicate Keeps(t: Training, next: Training) {
    && (t.artifact == ArtifactReady ==> next.artifact == ArtifactReady && next.artifactURI == t.artifactURI)
    && (t.checkpointURI != NO_ID ==> next.checkpointURI != NO_ID)
  }

  lemma SwapFollows(w: World, expected: int, next: Training, at: Time)
    requires w.versions != [] && !TrainingConflict(Current(w), expected, next) && Keeps(Current(w).training, next)
    ensures Follows(Current(w), Swapped(Current(w), expected, next, at))
    ensures Deadline(Swapped(Current(w), expected, next, at)) == Deadline(Current(w))
  {
  }

  lemma GrantedStays(versions: seq<Job>, next: Job, id: Id, u: Upload)
    requires Granted(versions, id, u)
    ensures Granted(versions + [next], id, u)
  {
    var job :| job in versions && job.training == u.training;
    assert job in versions + [next];
  }

  lemma SwapKeepsSound(w: World, expected: int, next: Training, at: Time, clock: Time)
    requires Sound(w) && Keeps(Current(w).training, next) && w.clock <= clock
    requires !TrainingConflict(Current(w), expected, next) ==> OutputsOk(Swapped(Current(w), expected, next, at), clock)
    ensures Sound(Swap(w, expected, next, at).(clock := clock))
  {
    hide Follows, Deadline, Granted;
    var after := Swap(w, expected, next, at).(clock := clock);
    if !TrainingConflict(Current(w), expected, next) {
      var job := Swapped(Current(w), expected, next, at);
      SwapFollows(w, expected, next, at);
      HistoryGrows(w.versions, job);
      forall id | id in w.uploads ensures Granted(after.versions, id, w.uploads[id]) {
        GrantedStays(w.versions, job, id, w.uploads[id]);
      }
    }
  }

  // ---------------------------------------------------------------- Every action

  lemma ElsewhereKeepsSound(w: World, next: Job)
    requires Sound(w) && LegalAction(w, Elsewhere(next))
    ensures Sound(w.(versions := w.versions + [next]))
  {
    hide Granted, History, Follows, Deadline;
    SoundIsNonEmpty(w);
    var job := Current(w);
    UntouchedFollows(job, next);
    UntouchedKeepsStamp(job, next, job.training.checkpointAt, w.clock);
    UntouchedKeepsStamp(job, next, job.training.artifactAt, w.clock);
    HistoryGrows(w.versions, next);
    forall id | id in w.uploads ensures Granted(w.versions + [next], id, w.uploads[id]) {
      GrantedStays(w.versions, next, id, w.uploads[id]);
    }
  }

  lemma UntouchedFollows(job: Job, next: Job)
    requires Untouched(job, next)
    ensures Follows(job, next)
  {
    DeadlineShrinks(job.events, next.events, job.RequestedWindow().end + GRACE, 0);
    assert job.RequestedWindow() == next.RequestedWindow();
  }

  lemma UntouchedKeepsStamp(job: Job, next: Job, at: Time, clock: Time)
    requires Untouched(job, next) && Prompt(next.events[|job.events|..], clock)
    ensures at <= clock && at < Deadline(job) ==> at < Deadline(next)
  {
    assert job.RequestedWindow() == next.RequestedWindow();
    assert at <= clock ==> Prompt(next.events[|job.events|..], at);
    DeadlineShrinks(job.events, next.events, job.RequestedWindow().end + GRACE, at);
  }

  lemma BeginKeepsSound(w: World, action: Action, timeout: int)
    requires Sound(w) && action.Begin? && LegalAction(w, action)
    ensures Sound(Act(w, action, timeout))
  {
    hide Follows, Deadline, Granted, History, SessionOpen;
    SoundIsNonEmpty(w);
    var job := w.versions[action.seen];
    var next := Begun(job.training, action.id, action.kind, action.now);
    if MayBegin(job, action.kind, action.now, timeout) && !TrainingConflict(Current(w), job.training.revision, next) {
      NoABA(w, job, next);
      SameDeadline(w, job.training.revision, next, action.now);
      var clock := Tick(w, action.now).clock;
      SwapKeepsSound(w, job.training.revision, next, action.now, clock);
      var swapped := Swap(w, job.training.revision, next, action.now);
      NewlyGranted(swapped.versions, action.id,
                   Upload(action.kind, action.step, Current(swapped).training,
                          UploadDeadline(job, action.now, timeout)));
    }
  }

  lemma NewlyGranted(versions: seq<Job>, id: Id, u: Upload)
    requires versions != [] && versions[|versions| - 1].training == u.training
    requires id != NO_ID && u.kind != NoKind && u.training.uploadId == id && u.training.uploadKind == u.kind
    ensures Granted(versions, id, u)
  {
    assert versions[|versions| - 1] in versions;
  }

  lemma SameDeadline(w: World, expected: int, next: Training, at: Time)
    requires w.versions != []
    ensures Deadline(Swapped(Current(w), expected, next, at)) == Deadline(Current(w))
  {
  }

  /** A time before the deadline of the version that was checked is before the current deadline. */
  lemma StampHolds(w: World, latest: nat, at: Time)
    requires History(w.versions) && latest < |w.versions| && w.versions[latest].events <= Current(w).events
    requires Prompt(Current(w).events[|w.versions[latest].events|..], at)
    requires at < Deadline(w.versions[latest])
    ensures at < Deadline(Current(w))
  {
    var job, now := w.versions[latest], Current(w);
    assert Follows(job, now);
    assert job.RequestedWindow() == now.RequestedWindow();
    DeadlineShrinks(job.events, now.events, job.RequestedWindow().end + GRACE, at);
  }

  lemma FewerUploads(w: World, id: Id)
    requires Sound(w)
    ensures Sound(w.(uploads := w.uploads - {id}))
  {
    hide History, OutputsOk, Granted;
  }

  lemma FinishKeepsSound(w: World, action: Action, timeout: int)
    requires Sound(w) && action.Finish? && LegalAction(w, action)
    ensures Sound(Act(w, action, timeout))
  {
    hide Follows, Deadline, History, Prompt;
    SoundIsNonEmpty(w);
    if action.id in w.uploads {
      FewerUploads(w, action.id);
      var u := w.uploads[action.id];
      var job :| job in w.versions && job.training == u.training;
      var lean := w.(uploads := w.uploads - {action.id});
      var good := PutHolds(u, action.put, action.cancelled, w.versions[action.latest], action.at);
      var next := if good then Published(u.training, u.kind, action.put.value, action.at, u.step)
        else Abandoned(u.training, u.kind);
      var clock := Tick(w, action.at).clock;
      SameDeadline(w, u.training.revision, next, action.at);
      if !TrainingConflict(Current(w), u.training.revision, next) {
        NoABA(w, job, next);
        if good {
          StampHolds(w, action.latest, action.at);
        }
        SwapKeepsSound(lean, u.training.revision, next, action.at, clock);
      }
    }
  }

  lemma RecoverKeepsSound(w: World, action: Action, timeout: int)
    requires Sound(w) && action.Recover? && LegalAction(w, action)
    ensures Sound(Act(w, action, timeout))
  {
    hide Follows, Deadline, Granted, History;
    SoundIsNonEmpty(w);
    var job := w.versions[action.seen];
    var next := Abandoned(job.training, job.training.uploadKind);
    SameDeadline(w, job.training.revision, next, action.now);
    if RecoveryDue(job, action.now, timeout) && !TrainingConflict(Current(w), job.training.revision, next) {
      NoABA(w, job, next);
      SwapKeepsSound(w, job.training.revision, next, action.now, Tick(w, action.now).clock);
    }
  }

  lemma RequestKeepsSound(w: World, action: Action, timeout: int)
    requires Sound(w) && action.Request? && LegalAction(w, action)
    ensures Sound(Act(w, action, timeout))
  {
    hide Follows, Deadline, Granted, History;
    SoundIsNonEmpty(w);
    var job := w.versions[action.seen];
    var next := job.training.(checkpoint := CheckpointRequested);
    SameDeadline(w, job.training.revision, next, action.now);
    if WarningDue(job, action.now, timeout) && !TrainingConflict(Current(w), job.training.revision, next) {
      NoABA(w, job, next);
      SwapKeepsSound(w, job.training.revision, next, action.now, Tick(w, action.now).clock);
    }
  }

  lemma ActKeepsSound(w: World, action: Action, timeout: int)
    requires Sound(w) && LegalAction(w, action)
    ensures Sound(Act(w, action, timeout))
    ensures w.versions <= Act(w, action, timeout).versions && w.clock <= Act(w, action, timeout).clock
  {
    match action
    case Elsewhere(next) => ElsewhereKeepsSound(w, next);
    case Begin(_, _, _, _, _) => BeginKeepsSound(w, action, timeout);
    case Finish(_, _, _, _, _) => FinishKeepsSound(w, action, timeout);
    case Recover(_, _) => RecoverKeepsSound(w, action, timeout);
    case Request(_, _) => RequestKeepsSound(w, action, timeout);
  }

  // ---------------------------------------------------------------- Every interleaving

  /** A freshly admitted training job. */
  predicate Fresh(job: Job) {
    var t := job.training;
    t.checkpoint == CheckpointNone && t.checkpointURI == NO_ID && t.artifact == ArtifactNone && t.uploadId == NO_ID
  }

  function Start(job: Job): World {
    World([job], ZERO_TIME, map[])
  }

  ghost predicate LegalActions(w: World, actions: seq<Action>, timeout: int)
    requires w.versions != []
    decreases |actions|
  {
    actions == [] || (LegalAction(w, actions[0]) && LegalActions(Act(w, actions[0], timeout), actions[1..], timeout))
  }

  function ActAll(w: World, actions: seq<Action>, timeout: int): World
    requires w.versions != [] && LegalActions(w, actions, timeout)
    decreases |actions|
  {
    if actions == [] then w else ActAll(Act(w, actions[0], timeout), actions[1..], timeout)
  }

  lemma {:induction false} ActionsKeepSound(w: World, actions: seq<Action>, timeout: int)
    requires Sound(w) && LegalActions(w, actions, timeout)
    ensures Sound(ActAll(w, actions, timeout)) && w.versions <= ActAll(w, actions, timeout).versions
    decreases |actions|
  {
    hide Sound, Act;
    if actions != [] {
      SoundIsNonEmpty(w);
      ActKeepsSound(w, actions[0], timeout);
      ActionsKeepSound(Act(w, actions[0], timeout), actions[1..], timeout);
    }
  }

  lemma SoundIsNonEmpty(w: World)
    requires Sound(w)
    ensures w.versions != []
  {
  }

  lemma StartIsSound(job: Job)
    requires Fresh(job)
    ensures Sound(Start(job))
  {
    FollowsItself(job);
  }

  /** Under any interleaving: between any two versions a READY artifact keeps its URI, a checkpoint URI is never emptied
      and the deadline never moves later; in the newest one FAILED has no URI, AVAILABLE and READY have one, and every
      published output is stamped before the deadline. */
  lemma PublicationSafety(job: Job, actions: seq<Action>, timeout: int, i: nat, j: nat)
    requires Fresh(job) && LegalActions(Start(job), actions, timeout)
    requires i <= j < |ActAll(Start(job), actions, timeout).versions|
    ensures var w := ActAll(Start(job), actions, timeout);
      var a, b, now := w.versions[i].training, w.versions[j].training, Current(w).training;
      && (a.artifact == ArtifactReady ==> b.artifact == ArtifactReady && b.artifactURI == a.artifactURI)
      && (a.checkpointURI != NO_ID ==> b.checkpointURI != NO_ID)
      && Deadline(w.versions[j]) <= Deadline(w.versions[i])
      && (now.checkpoint == CheckpointFailed ==> now.checkpointURI == NO_ID)
      && (now.checkpoint == CheckpointAvailable ==> now.checkpointURI != NO_ID)
      && (now.artifact == ArtifactReady ==> now.artifactURI != NO_ID && now.artifactAt < Deadline(Current(w)))
      && (now.checkpointURI != NO_ID ==> now.checkpointAt < Deadline(Current(w)))
  {
    hide Deadline, LegalActions, ActAll;
    StartIsSound(job);
    ActionsKeepSound(Start(job), actions, timeout);
    var w := ActAll(Start(job), actions, timeout);
    assert Follows(w.versions[i], w.versions[j]);
  }

  /** An uploader whose lease was replaced, recovered or merely followed by any other training update changes nothing
      when it finishes; otherwise its result is exactly what is stored. */
  lemma SupersededChangesNothing(w: World, action: Action, timeout: int)
    requires Sound(w) && action.Finish? && LegalAction(w, action) && action.id in w.uploads
    ensures var u, after := w.uploads[action.id], Act(w, action, timeout);
      && (after.versions == w.versions
          <==> Current(w).training != u.training || Current(w).workload != TrainingWorkload)
      && (Current(w).training == u.training && Current(w).workload == TrainingWorkload ==>
            && Current(w).training.uploadId == action.id && Current(after).training.uploadId == NO_ID
            && (PutHolds(u, action.put, action.cancelled, w.versions[action.latest], action.at) ==>
                  if u.kind == CheckpointKind then Current(after).training.checkpointURI == action.put.value
                  else Current(after).training.artifactURI == action.put.value
                       && Current(after).training.artifact == ArtifactReady))
  {
    hide Follows, Deadline, Prompt;
    var u := w.uploads[action.id];
    var job :| job in w.versions && job.training == u.training;
    var good := PutHolds(u, action.put, action.cancelled, w.versions[action.latest], action.at);
    var next := if good then Published(u.training, u.kind, action.put.value, action.at, u.step)
      else Abandoned(u.training, u.kind);
    if !TrainingConflict(Current(w), u.training.revision, next) {
      NoABA(w, job, next);
    }
  }
}
