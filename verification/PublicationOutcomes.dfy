/** What each actor of the publication protocol writes, and when, in the fields of the training metadata. */
module PublicationOutcomes {
  import opened Domain
  import opened StoreSpec
  import opened Publication

  const HALF_MINUTE := 30_000_000_000

  /** The event stops or ends the job. */
  predicate Closes(e: Event) {
    e.status in {Stopping, Stopped, Succeeded, Failed, Cancelled}
  }

  /** `at` is the earliest of the end of the requested time and every stop or end of the job, each half a minute
      later. */
  predicate IsDeadline(job: Job, at: Time) {
    var last := job.RequestedWindow().end + HALF_MINUTE;
    && at <= last && (forall e :: e in job.events && Closes(e) ==> at <= e.at + HALF_MINUTE)
    && (at == last || exists e :: e in job.events && Closes(e) && at == e.at + HALF_MINUTE)
  }

  lemma DeadlineMeans(job: Job)
    ensures IsDeadline(job, Deadline(job))
  {
    hide Job.RequestedWindow;
    DeadlineExactly(job.events, job.RequestedWindow().end + GRACE);
    assert forall e :: Ends(e) <==> Closes(e);
  }

  /** Nobody has uploaded under this lease for at least the timeout, or there is none. */
  predicate Unleased(t: Training, now: Time, timeout: int) {
    t.uploadId == NO_ID || t.uploadStarted + timeout <= now
  }

  /** A launched training job inside its window or the grace, without a running upload; an artifact is published
      once. */
  predicate MayUpload(job: Job, kind: UploadKind, now: Time, timeout: int) {
    var window := job.RequestedWindow();
    && window.start != ZERO_TIME && window.start < window.end && window.start <= now < Deadline(job)
    && job.assignment.Some? && job.assignment.value.commandId != NO_ID
    && Unleased(job.training, now, timeout)
    && (kind == ArtifactKind ==> job.training.artifact != ArtifactReady)
  }

  /** The version read is still the current one as far as training goes. */
  predicate UpToDate(w: World, seen: Job)
    requires w.versions != []
  {
    Current(w).workload == TrainingWorkload && Current(w).training == seen.training
  }

  lemma SwapsExactly(w: World, seen: Job, next: Training)
    requires Sound(w) && seen in w.versions
    requires next.checkpoint == CheckpointRequested ==>
      seen.training.checkpoint == CheckpointRequested || Current(w).status == RunningJob
    ensures !TrainingConflict(Current(w), seen.training.revision, next) <==> UpToDate(w, seen)
  {
    hide Deadline, OutputsOk, Granted;
    if !TrainingConflict(Current(w), seen.training.revision, next) {
      NoABA(w, seen, next);
    }
  }

  /** An upload begins exactly for an actor whose reading is up to date and allows it. It takes the lease, marks the
      output as being saved, and must be over by the deadline and within the timeout. */
  lemma BeginOutcome(w: World, action: Action, timeout: int)
    requires Sound(w) && action.Begin? && LegalAction(w, action)
    ensures var seen, after := w.versions[action.seen], Act(w, action, timeout);
      if !(UpToDate(w, seen) && MayUpload(seen, action.kind, action.now, timeout)) then after == w
      else
        && after.versions == w.versions + [Current(after)]
        && Current(after) == Current(w).(training := Current(after).training, updatedAt := action.now)
        && Current(after).training == seen.training.(
             uploadId := action.id, uploadKind := action.kind, uploadStarted := action.now,
             checkpoint := if action.kind == CheckpointKind then CheckpointSaving else seen.training.checkpoint,
             artifact := if action.kind == CheckpointKind then seen.training.artifact else ArtifactSaving,
             revision := seen.training.revision + 1)
        && action.id in after.uploads && after.uploads == w.uploads[action.id := after.uploads[action.id]]
        && var u := after.uploads[action.id];
           && u.kind == action.kind && u.step == action.step && u.training == Current(after).training
           && u.deadline <= Deadline(seen) && u.deadline <= action.now + timeout
           && (u.deadline == Deadline(seen) || u.deadline == action.now + timeout)
  {
    hide Sound, Deadline, Job.RequestedWindow;
    SoundIsNonEmpty(w);
    var seen := w.versions[action.seen];
    SwapsExactly(w, seen, Begun(seen.training, action.id, action.kind, action.now));
  }

  /** The object was stored in time: before the current deadline and the upload's own, uncancelled, under some URI. */
  predicate Stored(u: Upload, put: Option<Id>, cancelled: bool, latest: Job, at: Time) {
    put.Some? && put.value != NO_ID && !cancelled && at < u.deadline && at < Deadline(latest)
  }

  /** What a finished upload leaves behind. */
  function Outputs(t: Training, kind: UploadKind, uri: Option<Id>, at: Time, step: int): Training {
    var free := t.(uploadId := NO_ID, uploadKind := NoKind, revision := t.revision + 1);
    match uri
    case Some(u) =>
      if kind == CheckpointKind
      then free.(checkpoint := CheckpointAvailable, checkpointURI := u, checkpointAt := at, step := step)
      else free.(artifact := ArtifactReady, artifactURI := u, artifactAt := at)
    case None =>
      if kind != CheckpointKind then free.(artifact := ArtifactFailed)
      else if t.checkpointURI == NO_ID then free.(checkpoint := CheckpointFailed)
      else free.(checkpoint := CheckpointAvailable)
  }

  /** A finished upload is written exactly when nobody changed the training since its lease: the stored object becomes
      the output, otherwise the output failed, or falls back to the checkpoint before it. */
  lemma FinishOutcome(w: World, action: Action, timeout: int)
    requires Sound(w) && action.Finish? && LegalAction(w, action) && action.id in w.uploads
    ensures var u, after := w.uploads[action.id], Act(w, action, timeout);
      && after.uploads == w.uploads - {action.id}
      && if !(Current(w).workload == TrainingWorkload && Current(w).training == u.training)
          then after.versions == w.versions
         else
           && after.versions == w.versions + [Current(after)]
           && Current(after) == Current(w).(training := Current(after).training, updatedAt := action.at)
           && Current(after).training ==
                Outputs(u.training, u.kind,
                        if Stored(u, action.put, action.cancelled, w.versions[action.latest], action.at)
                        then action.put else None, action.at, u.step)
  {
    hide Deadline, Follows, Prompt, OutputsOk;
    SoundIsNonEmpty(w);
    var u := w.uploads[action.id];
    var job :| job in w.versions && job.training == u.training;
    var next := if PutHolds(u, action.put, action.cancelled, w.versions[action.latest], action.at)
      then Published(u.training, u.kind, action.put.value, action.at, u.step) else Abandoned(u.training, u.kind);
    FinishedNotRequested(u, next);
    SwapsExactly(w, job, next);
  }

  lemma FinishedNotRequested(u: Upload, next: Training)
    ensures (exists put, at :: next == Published(u.training, u.kind, put, at, u.step))
      || next == Abandoned(u.training, u.kind)
      ==> (next.checkpoint == CheckpointRequested ==> u.training.checkpoint == CheckpointRequested)
  {
  }

  /** Recovery gives up an upload exactly when its lease timed out or the deadline passed, on an up-to-date reading. */
  lemma RecoverOutcome(w: World, action: Action, timeout: int)
    requires Sound(w) && action.Recover? && LegalAction(w, action)
    ensures var seen, after := w.versions[action.seen], Act(w, action, timeout);
      && after.uploads == w.uploads
      && if !(UpToDate(w, seen) && seen.training.uploadId != NO_ID
              && (seen.training.uploadStarted + timeout <= action.now || Deadline(seen) <= action.now))
         then after.versions == w.versions
         else
           && after.versions == w.versions + [Current(after)]
           && Current(after) == Current(w).(training := Current(after).training, updatedAt := action.now)
           && Current(after).training == Outputs(seen.training, seen.training.uploadKind, None, action.now, 0)
  {
    hide Deadline, Sound;
    SoundIsNonEmpty(w);
    var seen := w.versions[action.seen];
    SwapsExactly(w, seen, Abandoned(seen.training, seen.training.uploadKind));
  }

  lemma SoundHistory(w: World)
    requires Sound(w)
    ensures History(w.versions)
  {
  }

  /** The warning is due: a running training job, no upload under way, the time of the warning has come and the window
      has not ended, and no checkpoint was saved, is being saved or was asked for since. */
  predicate Warns(job: Job, now: Time, timeout: int) {
    var t := job.training;
    && job.workload == TrainingWorkload && job.status == RunningJob && Unleased(t, now, timeout)
    && t.warningAt != ZERO_TIME && t.warningAt <= now < job.RequestedWindow().end && t.checkpointAt < t.warningAt
    && t.checkpoint !in {CheckpointSaving, CheckpointRequested}
  }

  /** A checkpoint is asked for exactly when the warning is due on an up-to-date reading and the job still runs. */
  lemma RequestOutcome(w: World, action: Action, timeout: int)
    requires Sound(w) && action.Request? && LegalAction(w, action)
    ensures var seen, after := w.versions[action.seen], Act(w, action, timeout);
      && after.uploads == w.uploads
      && if !(UpToDate(w, seen) && Current(w).status == RunningJob && Warns(seen, action.now, timeout))
         then after.versions == w.versions
         else
           && after.versions == w.versions + [Current(after)]
           && Current(after) == Current(w).(training := Current(after).training, updatedAt := action.now)
           && Current(after).training
              == seen.training.(checkpoint := CheckpointRequested, revision := seen.training.revision + 1)
  {
    hide Deadline, Sound, Job.RequestedWindow;
    SoundIsNonEmpty(w);
    var seen := w.versions[action.seen];
    if Current(w).status == RunningJob {
      SwapsExactly(w, seen, seen.training.(checkpoint := CheckpointRequested));
    } else if !TrainingConflict(Current(w), seen.training.revision, seen.training.(checkpoint := CheckpointRequested)) {
      SoundHistory(w);
      NoABA(w, seen, seen.training.(checkpoint := CheckpointRequested));
    }
  }
}
