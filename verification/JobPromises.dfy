/** What each operation of the job database promises its caller, stated by outcome: when it is
    accepted, why it may be refused, and where the job stands afterwards. None of it follows from
    one operation alone; it needs the invariant that all of them keep. */
module JobPromises {

  import opened Wrappers
  import opened JobStates
  import opened JobModel
  import opened JobSafety
  import opened JobProtocol

  /** What the caller of a transaction is told. */
  function Reply(w: Written): Result<(), Refusal> {
    match w
    case Ok(_) => Ok(())
    case Err(e) => Err(e)
  }

  /** Only this row may have changed. */
  predicate OnlyRow(s: Store, s': Store, id: JobId) {
    s'.jobs.Keys == s.jobs.Keys && forall o | o in s.jobs && o != id :: s'.jobs[o] == s.jobs[o]
  }

  /** The row changed in nothing but its control. */
  predicate SameButControl(j: Job, j': Job) {
    j' == j.(control := j'.control, controlRevision := j'.controlRevision)
  }

  /** A lane that the row would enter is held by another job. */
  ghost predicate LaneHeld(s: Store, id: JobId, state: JobState) {
    || (state in PREPARATION_ACTIVE_STATES && Taken(s.jobs, id, PREPARATION_ACTIVE_STATES))
    || (state in BLOCKING_STATES && Taken(s.jobs, id, BLOCKING_STATES))
  }

  /** Kept by every transaction, refused or not: the invariant, and a legal step of every row. */
  ghost predicate Kept(s: Store, s': Store, op: Op) { Inv(s') && RowsStep(s, s', op) }

  lemma EveryTransactionKeeps(s: Store, op: Op)
    requires Possible(s, op)
    ensures Inv(s) ==> Kept(s, Next(s, op), op)
  {
    hide Inv, RowsStep, Next, Possible;
    if Inv(s) {
      StepKeepsInv(s, op);
      EveryRowSteps(s, op);
    }
  }

  // ---- moves --------------------------------------------------------------------------------

  /** A move is accepted exactly if it is legal and its lane is free, and then the row stands there,
      one version later, with its progress no lower unless a review sends it back. */
  ghost predicate MovePromise(s: Store, s': Store, id: JobId, target: JobState, r: Result<(), Refusal>)
    requires id in s.jobs
  {
    var j := s.jobs[id];
    && (r.Ok? <==> CanMove(j, target) && (j.control == PAUSED || !LaneHeld(s, id, target)))
    && (r == Err(QueueBlocked) <==> CanMove(j, target) && j.control != PAUSED && LaneHeld(s, id, target))
    && (r.Err? ==> r.error in {Conflict, Illegal, QueueBlocked} && s' == s)
    && (r.Ok? ==>
         && OnlyRow(s, s', id)
         && s'.jobs[id].state == target && s'.jobs[id].control == j.control && s'.jobs[id].version == j.version + 1
         && (target == FAILED ==> s'.jobs[id].resume == Some(j.state) && s'.jobs[id].error.Some?)
         && (s'.jobs[id].finishedAt.Some? <==> target in TERMINAL_STATES)
         && (j.progress.Some? && !(j.state == NEEDS_REVIEW && target == READY) ==>
              s'.jobs[id].progress.Some? && s'.jobs[id].progress.value >= j.progress.value))
  }

  lemma MoveIsAccepted(s: Store, id: JobId, target: JobState, message: Option<string>)
    requires Inv(s) && id in s.jobs
    ensures var j, w := s.jobs[id], Transition(s, id, target, message);
            && (w.Ok? <==> CanMove(j, target) && (j.control == PAUSED || !LaneHeld(s, id, target)))
            && (w == Err(QueueBlocked) <==> CanMove(j, target) && j.control != PAUSED && LaneHeld(s, id, target))
            && (w.Err? ==> w.error in {Conflict, Illegal, QueueBlocked})
            && (w.Ok? ==> w.value.jobs == s.jobs[id := Moved(j, target, message, s.now)])
  {
    hide Inv, Lanes, Taken, Moved;
    if CanMove(s.jobs[id], target) {
      IndexRefusesTransitionIff(s, id, target, message);
    }
  }

  lemma MovedRow(j: Job, target: JobState, message: Option<string>, now: int)
    requires JobOK(j) && CanMove(j, target)
    ensures var j' := Moved(j, target, message, now);
            && j'.state == target && j'.control == j.control && j'.version == j.version + 1
            && (target == FAILED ==> j'.resume == Some(j.state) && j'.error.Some?)
            && (j'.finishedAt.Some? <==> target in TERMINAL_STATES)
            && (j.progress.Some? && !(j.state == NEEDS_REVIEW && target == READY) ==>
                 j'.progress.Some? && j'.progress.value >= j.progress.value)
  {
    MoveKeepsRow(j, target, message, now);
  }

  lemma MoveIsAsPromised(s: Store, id: JobId, target: JobState, message: Option<string>)
    requires Inv(s) && id in s.jobs
    ensures var w := Transition(s, id, target, message);
            MovePromise(s, if w.Ok? then w.value else s, id, target, Reply(w))
  {
    hide Inv, Lanes, LaneHeld, Moved, Transition, JobOK;
    RowIsOK(s, id);
    MoveIsAccepted(s, id, target, message);
    if CanMove(s.jobs[id], target) {
      MovedRow(s.jobs[id], target, message, s.now);
    }
  }

  lemma MoveKeepsTheStore(s: Store, id: JobId, target: JobState, message: Option<string>)
    requires Inv(s) && id in s.jobs && s.jobs[id].control == RUNNING
    ensures Transition(s, id, target, message).Ok? ==> Inv(Transition(s, id, target, message).value)
  {
    hide Inv, Transition;
    if Transition(s, id, target, message).Ok? {
      TransitionKeepsInv(s, id, target, message);
    }
  }

  // ---- control ------------------------------------------------------------------------------

  /** Only a paused row that would occupy its lane again can be stopped by an index. */
  ghost predicate ControlPromise(s: Store, s': Store, id: JobId, target: Control, r: Result<(), Refusal>)
    requires id in s.jobs
  {
    var j := s.jobs[id];
    && (r.Err? <==> j.control == PAUSED && target != PAUSED && LaneHeld(s, id, j.state))
    && (r.Err? ==> r == Err(QueueBlocked) && s' == s)
    && (r.Ok? ==> OnlyRow(s, s', id) && SameButControl(j, s'.jobs[id])
                  && s'.jobs[id].control == target && s'.jobs[id].controlRevision == j.controlRevision + 1)
  }

  lemma ControlledRowIsFree(s: Store, id: JobId, j': Job)
    requires Lanes(s.jobs) && id in s.jobs && SameButControl(s.jobs[id], j')
    ensures Lanes(s.jobs[id := j']) <==> !(s.jobs[id].control == PAUSED && j'.control != PAUSED && LaneHeld(s, id, s.jobs[id].state))
  {
    IndexRefusesIff(s.jobs, id, j');
    hide Lanes, Taken;
    if s.jobs[id].control != PAUSED {
      HoldersAreAlone(s, id);
    }
  }

  lemma ControlIsAsPromised(s: Store, id: JobId, target: Control, kind: EventKind)
    requires Inv(s) && id in s.jobs
    ensures var w := SetControl(s, id, target, kind);
            ControlPromise(s, if w.Ok? then w.value else s, id, target, Reply(w))
  {
    hide Inv, Lanes, LaneHeld;
    LanesHold(s);
    var j' := s.jobs[id].(control := target, controlRevision := s.jobs[id].controlRevision + 1);
    ControlledRowIsFree(s, id, j');
    assert AfterControl(s, id, target, kind).jobs == s.jobs[id := j'];
  }

  lemma HoldersAreAlone(s: Store, id: JobId)
    requires Lanes(s.jobs) && id in s.jobs && s.jobs[id].control != PAUSED
    ensures !LaneHeld(s, id, s.jobs[id].state)
  {
    OwnLane(s.jobs, id, PREPARATION_ACTIVE_STATES);
    OwnLane(s.jobs, id, BLOCKING_STATES);
  }

  /** A pause is accepted unless the job is finished or being cancelled. A worker is asked; an idle job
      is paused at once. */
  predicate PausePromise(s: Store, s': Store, id: JobId, revision: Option<int>, r: Result<(), Refusal>) {
    && (r == Err(NotFound) <==> id !in s.jobs)
    && (r.Err? ==> r.error in {NotFound, Conflict} && s' == s)
    && (id in s.jobs ==>
         var j := s.jobs[id];
         && (r.Ok? <==> Matches(revision, j.controlRevision) && j.state !in TERMINAL_STATES && j.control != CANCEL_REQUESTED)
         && (r.Ok? ==> OnlyRow(s, s', id) && SameButControl(j, s'.jobs[id])
                       && s'.jobs[id].control == if j.state in CONTROL_ACTIVE_STATES && j.control != PAUSED then PAUSE_REQUESTED else PAUSED))
  }

  lemma PauseIsAsPromised(s: Store, id: JobId, revision: Option<int>)
    requires Inv(s)
    ensures PausePromise(s, Next(s, OpRequestPause(id, revision)), id, revision, Reply(Apply(s, OpRequestPause(id, revision))))
  {
    hide Inv, Lanes, SetControl, LaneHeld;
    if id in s.jobs {
      RowIsOK(s, id);
      var j := s.jobs[id];
      var target := if j.state in CONTROL_ACTIVE_STATES then PAUSE_REQUESTED else PAUSED;
      ControlIsAsPromised(s, id, target, PauseRequested);
    }
  }

  /** A cancellation is accepted unless the job completed or failed. A worker is only asked to stop;
      every other job is at once cancelled and released. */
  predicate CancelPromise(s: Store, s': Store, id: JobId, revision: Option<int>, r: Result<(), Refusal>) {
    && (r == Err(NotFound) <==> id !in s.jobs)
    && (r.Err? ==> r.error in {NotFound, Conflict} && s' == s)
    && (id in s.jobs ==>
         var j := s.jobs[id];
         && (r.Ok? <==> Matches(revision, j.controlRevision) && j.state !in {COMPLETED, FAILED})
         && (r.Ok? ==> OnlyRow(s, s', id) && var j' := s'.jobs[id];
                       if j.state in CONTROL_ACTIVE_STATES && j.control != PAUSED
                       then SameButControl(j, j') && j'.control == CANCEL_REQUESTED
                       else j'.state == CANCELLED && j'.control == RUNNING && j'.finishedAt.Some?))
  }

  lemma CancelIsAsPromised(s: Store, id: JobId, revision: Option<int>)
    requires Inv(s)
    ensures CancelPromise(s, Next(s, OpRequestCancel(id, revision)), id, revision, Reply(Apply(s, OpRequestCancel(id, revision))))
  {
    hide Inv, Lanes, SetControl, LaneHeld, Cancel;
    if id in s.jobs {
      RowIsOK(s, id);
      var j := s.jobs[id];
      ControlIsAsPromised(s, id, CANCEL_REQUESTED, CancelRequested);
      if j.state !in TERMINAL_STATES {
        CancelKeepsInv(s, id);
      }
    }
  }

  /** Only a pause that was asked for is acknowledged, and then the job is paused where it stood. */
  predicate PausedPromise(s: Store, s': Store, id: JobId, revision: Option<int>, r: Result<(), Refusal>) {
    && (r == Err(NotFound) <==> id !in s.jobs)
    && (r.Err? ==> r.error in {NotFound, Conflict} && s' == s)
    && (id in s.jobs ==>
         var j := s.jobs[id];
         && (r.Ok? <==> Matches(revision, j.controlRevision) && j.control in {PAUSED, PAUSE_REQUESTED})
         && (r.Ok? ==> OnlyRow(s, s', id) && SameButControl(j, s'.jobs[id]) && s'.jobs[id].control == PAUSED)
         && (j.control == PAUSED ==> s' == s))
  }

  lemma PausedIsAsPromised(s: Store, id: JobId, revision: Option<int>)
    requires Inv(s)
    ensures PausedPromise(s, Next(s, OpAcknowledgePause(id, revision)), id, revision, Reply(Apply(s, OpAcknowledgePause(id, revision))))
  {
    hide Inv, Lanes, SetControl, LaneHeld;
    if id in s.jobs {
      RowIsOK(s, id);
      ControlIsAsPromised(s, id, PAUSED, EventKind.Paused);
    }
  }

  /** Only a cancellation that was asked for is acknowledged, and it ends in CANCELLED and RUNNING. */
  predicate CancelledPromise(s: Store, s': Store, id: JobId, revision: Option<int>, r: Result<(), Refusal>) {
    && (r == Err(NotFound) <==> id !in s.jobs)
    && (r.Err? ==> r.error in {NotFound, Conflict} && s' == s)
    && (id in s.jobs ==>
         var j := s.jobs[id];
         && (r.Ok? <==> Matches(revision, j.controlRevision) && (j.state == CANCELLED || j.control == CANCEL_REQUESTED))
         && (r.Ok? ==> OnlyRow(s, s', id) && s'.jobs[id].state == CANCELLED && s'.jobs[id].control == RUNNING && s'.jobs[id].finishedAt.Some?)
         && (j.state == CANCELLED ==> s' == s))
  }

  lemma CancelledIsAsPromised(s: Store, id: JobId, revision: Option<int>)
    requires Inv(s)
    ensures CancelledPromise(s, Next(s, OpAcknowledgeCancel(id, revision)), id, revision, Reply(Apply(s, OpAcknowledgeCancel(id, revision))))
  {
    hide Inv, Lanes, Cancel;
    if id in s.jobs {
      RowIsOK(s, id);
      if s.jobs[id].state !in TERMINAL_STATES {
        CancelKeepsInv(s, id);
      }
    }
  }

  /** A paused job resumes where it stood, unless another job took its lane meanwhile. */
  ghost predicate ResumePromise(s: Store, s': Store, id: JobId, revision: Option<int>, r: Result<(), Refusal>) {
    && (r == Err(NotFound) <==> id !in s.jobs)
    && (r.Err? ==> r.error in {NotFound, Conflict, QueueBlocked} && s' == s)
    && (id in s.jobs ==>
         var j := s.jobs[id];
         var mayResume := Matches(revision, j.controlRevision) && j.control == PAUSED;
         && (r.Ok? <==> mayResume && !LaneHeld(s, id, j.state))
         && (r == Err(QueueBlocked) <==> mayResume && LaneHeld(s, id, j.state))
         && (r.Ok? ==> OnlyRow(s, s', id) && SameButControl(j, s'.jobs[id]) && s'.jobs[id].control == RUNNING))
  }

  lemma ResumeIsAsPromised(s: Store, id: JobId, revision: Option<int>)
    requires Inv(s)
    ensures ResumePromise(s, Next(s, OpResumePaused(id, revision)), id, revision, Reply(Apply(s, OpResumePaused(id, revision))))
  {
    hide Inv, Lanes, SetControl, LaneHeld;
    if id in s.jobs {
      RowIsOK(s, id);
      ControlIsAsPromised(s, id, RUNNING, Resumed);
    }
  }

  // ---- a second life ------------------------------------------------------------------------

  /** A retry re-enters the stage that failed. It is refused for its version, its stage or another
      blocking job, never for what the log says or by an index. */
  ghost predicate RetryPromise(s: Store, s': Store, id: JobId, version: Option<int>, r: Result<(), Refusal>) {
    && (r == Err(NotFound) <==> id !in s.jobs)
    && (r.Err? ==> r.error in {NotFound, Conflict, NotRetryable, QueueBlocked} && s' == s)
    && (id in s.jobs ==>
         var j := s.jobs[id];
         && (r.Ok? <==>
              && j.state == FAILED && Matches(version, j.version)
              && j.resume.Some? && j.resume.value in RETRYABLE_FAILED_STAGES
              && (j.resume == Some(READY) || !OtherBlocking(s, id)))
         && (r.Ok? ==> OnlyRow(s, s', id) && var j' := s'.jobs[id];
                       && Some(j'.state) == j.resume && j'.control == RUNNING && j'.version == j.version + 1
                       && j'.error.None? && j'.resume.None? && j'.finishedAt.None? && j'.selected == j.selected))
  }

  lemma RetryErrors(s: Store, id: JobId, version: Option<int>)
    ensures RetryFailed(s, id, version) == Err(NotFound) <==> id !in s.jobs
    ensures RetryFailed(s, id, version).Err? ==>
              RetryFailed(s, id, version).error in {NotFound, Conflict, NotRetryable, QueueBlocked, NoProvenance, ProvenanceMismatch}
  {
    hide Lanes, LatestLink, Logged, Revived;
  }

  lemma RetryIsAsPromised(s: Store, id: JobId, version: Option<int>)
    requires Inv(s)
    ensures RetryPromise(s, Next(s, OpRetryFailed(id, version)), id, version, Reply(Apply(s, OpRetryFailed(id, version))))
  {
    hide Inv, OtherBlocking, LatestLink, Lanes, RetryFailed;
    RetryErrors(s, id, version);
    if id in s.jobs {
      RowIsOK(s, id);
      RetrySucceedsIff(s, id, version);
    }
  }

  /** A restart is refused for state or version only. It reuses the earliest stage whose results are
      still there: READY exactly with a scan and a selection, the queue exactly without a scan. */
  predicate RestartPromise(s: Store, s': Store, id: JobId, version: Option<int>, r: Result<(), Refusal>) {
    && (r == Err(NotFound) <==> id !in s.jobs)
    && (r.Err? ==> r.error in {NotFound, Conflict} && s' == s)
    && (id in s.jobs ==>
         var j := s.jobs[id];
         && (r.Ok? <==> j.state == CANCELLED && Matches(version, j.version))
         && (r.Ok? ==> OnlyRow(s, s', id) && var j' := s'.jobs[id];
                       && j'.state in {QUEUED, AWAITING_SELECTION, READY}
                       && (j'.state == READY <==> Scanned(s, id) && j.selected) && (j'.state == QUEUED <==> !Scanned(s, id))
                       && (j'.state == QUEUED ==> j'.startedAt.None?)
                       && j'.control == RUNNING && j'.error.None? && j'.resume.None? && j'.finishedAt.None? && j'.version == j.version + 1))
  }

  lemma RestartIsAsPromised(s: Store, id: JobId, version: Option<int>)
    requires Inv(s)
    ensures RestartPromise(s, Next(s, OpRestartCancelled(id, version)), id, version, Reply(Apply(s, OpRestartCancelled(id, version))))
  {
    hide Inv, Scanned;
    if id in s.jobs {
      RowIsOK(s, id);
    }
  }

  /** A deletion leaves no trace of the job, and every other job with its row and its history. */
  ghost predicate DeletePromise(s: Store, s': Store, id: JobId, version: Option<int>, allowCompleted: bool, r: Result<(), Refusal>) {
    && (r == Err(NotFound) <==> id !in s.jobs)
    && (r.Err? ==> r.error in {NotFound, Conflict} && s' == s)
    && (id in s.jobs ==>
         (r.Ok? <==> s.jobs[id].state in TERMINAL_STATES && (s.jobs[id].state == COMPLETED ==> allowCompleted)
                     && Matches(version, s.jobs[id].version)))
    && (r.Ok? ==>
         && s'.jobs == s.jobs - {id}
         && (forall k :: k in s'.scans <==> k in s.scans && s.scans[k].job != id)
         && (forall k | k in s'.scans :: s'.scans[k] == s.scans[k])
         && (forall e :: e in s'.events <==> e in s.events && e.job != id)
         && (forall o | o != id :: LogOf(s'.events, o) == LogOf(s.events, o)))
  }

  lemma DeleteIsAsPromised(s: Store, id: JobId, version: Option<int>, allowCompleted: bool)
    ensures DeletePromise(s, Next(s, OpDelete(id, version, allowCompleted)), id, version, allowCompleted,
                          Reply(Apply(s, OpDelete(id, version, allowCompleted))))
  {
    hide Without, LogOf;
    WithoutIsAPart(s.events, id);
    forall o | o != id ensures LogOf(Without(s.events, id), o) == LogOf(s.events, o) {
      OthersKeepTheirLog(s.events, id, o);
    }
  }

  // ---- progress and scans -------------------------------------------------------------------

  /** Progress reaches at least what is reported, never falls, and stays a fraction; nothing else
      about the job changes but its version. */
  predicate ProgressPromise(s: Store, s': Store, id: JobId, progress: real, expected: Option<JobState>, r: Result<(), Refusal>) {
    && (r == Err(Invalid) <==> !(0.0 <= progress <= 1.0))
    && (r.Err? ==> s' == s)
    && (r.Ok? ==> id in s.jobs && s.jobs[id].state !in TERMINAL_STATES && s.jobs[id].control != PAUSED
                  && (expected.Some? ==> expected.value == s.jobs[id].state))
    && (r.Ok? ==> OnlyRow(s, s', id) && var j, j' := s.jobs[id], s'.jobs[id];
                  && j'.progress.Some? && progress <= j'.progress.value <= 1.0
                  && (j.progress.Some? ==> j.progress.value <= j'.progress.value)
                  && (j'.progress == Some(progress) || j'.progress == j.progress)
                  && j' == j.(progress := j'.progress, version := j.version + 1))
  }

  lemma ProgressIsAsPromised(s: Store, id: JobId, progress: real, expected: Option<JobState>, emit: bool)
    requires Inv(s)
    ensures ProgressPromise(s, Next(s, OpRecordProgress(id, progress, expected, emit)), id, progress, expected,
                            Reply(Apply(s, OpRecordProgress(id, progress, expected, emit))))
  {
    hide Inv, RowOK;
    if id in s.jobs {
      FractionHolds(s, id);
    }
  }

  lemma FractionHolds(s: Store, id: JobId)
    requires Inv(s) && id in s.jobs
    ensures s.jobs[id].progress.Some? ==> 0.0 <= s.jobs[id].progress.value <= 1.0
  {
    RowIsOK(s, id);
    hide Inv;
  }

  /** A scan is opened only for a scanning job, once, and it changes neither a job nor another scan nor
      the chain of states of any job. */
  ghost predicate ScanPromise(s: Store, s': Store, k: ScanId, id: JobId, status: ScanStatus, r: Result<(), Refusal>) {
    && (r.Err? ==> s' == s)
    && (r.Ok? <==> id in s.jobs && s.jobs[id].state == SCANNING && status in {ScanPending, ScanRunning} && k !in s.scans)
    && (r.Ok? ==>
         && s'.jobs == s.jobs && k in s'.scans && s'.scans[k].job == id && s'.scans[k].status == status
         && s'.scans == s.scans[k := s'.scans[k]]
         && (forall o :: LatestLink(s'.events, o) == LatestLink(s.events, o)))
  }

  lemma ScanIsAsPromised(s: Store, k: ScanId, id: JobId, status: ScanStatus)
    ensures ScanPromise(s, Next(s, OpCreateScan(k, id, status)), k, id, status, Reply(Apply(s, OpCreateScan(k, id, status))))
  {
    var e := Event(s.nextEvent, id, ScanCreated, None, None, s.now);
    assert (s.events + [e])[..|s.events|] == s.events;
    assert forall o :: LatestLink(s.events + [e], o) == LatestLink(s.events, o);
  }

  /** A selection is accepted exactly from a running job that waits for one or is under review. The
      job ends ready, nothing else about any other job changes, and the latest scan that waited for
      it is closed: none that still waits is later. No lane can refuse it. */
  ghost predicate SelectionPromise(s: Store, s': Store, id: JobId, version: Option<int>, scan: Option<ScanId>, r: Result<(), Refusal>) {
    && (r == Err(NotFound) <==> id !in s.jobs)
    && (r.Err? ==> r.error in {NotFound, Conflict} && s' == s)
    && (id in s.jobs ==>
         var j := s.jobs[id];
         && (r.Ok? <==> j.state in {AWAITING_SELECTION, NEEDS_REVIEW} && Matches(version, j.version) && j.control == RUNNING)
         && (r.Ok? ==> OnlyRow(s, s', id) && var j' := s'.jobs[id];
                       j'.state == READY && j'.control == RUNNING && j'.selected && j'.version == j.version + 1
                       && (j.state == NEEDS_REVIEW ==> j'.resume.None?)))
    && (r.Ok? ==> OnlyScan(s, s', id, scan))
  }

  /** Of the scans only the one that was waiting last is closed. */
  ghost predicate OnlyScan(s: Store, s': Store, id: JobId, scan: Option<ScanId>) {
    && s'.scans.Keys == s.scans.Keys
    && (forall k | k in s.scans && scan != Some(k) :: s'.scans[k] == s.scans[k])
    && (scan.Some? ==> scan.value in s.scans && s'.scans[scan.value] == s.scans[scan.value].(status := ScanCompleted))
    && (forall k | k in s'.scans && s'.scans[k].job == id && s'.scans[k].status == ScanAwaitingSelection ::
          scan.Some? && s'.scans[k].createdAt <= s'.scans[scan.value].createdAt)
  }

  /** A legal move to a state without a lane is refused only to a job that is not running. */
  lemma SettlesUnlessHeld(s: Store, id: JobId, target: JobState, message: Option<string>)
    requires Inv(s) && id in s.jobs && target !in PREPARATION_ACTIVE_STATES + BLOCKING_STATES
    requires target in AllowedTransitions(s.jobs[id].state, s.jobs[id].resume) && target != CANCELLED
    ensures var w := Transition(s, id, target, message);
            && (w.Ok? <==> s.jobs[id].control == RUNNING) && (w.Err? ==> w == Err(Conflict))
            && (w.Ok? ==> w.value.jobs == s.jobs[id := Moved(s.jobs[id], target, message, s.now)] && w.value.scans == s.scans)
  {
    hide Inv, Lanes, Taken, Moved, AllowedTransitions;
    MoveIsAccepted(s, id, target, message);
  }

  lemma SelectedStore(s: Store, id: JobId, scan: Option<ScanId>) returns (u: Store)
    requires Inv(s) && id in s.jobs
    ensures Inv(u) && u == Accepted(Logged(WithJob(s, id, s.jobs[id].(selected := true)), id, Selection, None, None), id, scan)
    ensures u.jobs == s.jobs[id := s.jobs[id].(selected := true)] && u.scans == Accepted(s, id, scan).scans && u.now == s.now
  {
    SelectedKeepsInv(s, id);
    u := Logged(WithJob(s, id, s.jobs[id].(selected := true)), id, Selection, None, None);
    AcceptedKeepsInv(u, id, scan);
    hide Inv;
    u := Accepted(u, id, scan);
  }

  lemma ReadyIsAllowed(s: Store, id: JobId)
    requires Inv(s) && id in s.jobs && s.jobs[id].state in {AWAITING_SELECTION, NEEDS_REVIEW}
    ensures READY in AllowedTransitions(s.jobs[id].state, s.jobs[id].resume)
  {
    RowIsOK(s, id);
    hide Inv;
  }

  lemma SelectedRowMoves(s: Store, id: JobId, scan: Option<ScanId>)
    requires Inv(s) && id in s.jobs && s.jobs[id].state in {AWAITING_SELECTION, NEEDS_REVIEW}
    ensures var selected := Logged(WithJob(s, id, s.jobs[id].(selected := true)), id, Selection, None, None);
            var w := Transition(Accepted(selected, id, scan), id, READY, Some("selected"));
            && (w.Ok? <==> s.jobs[id].control == RUNNING) && (w.Err? ==> w == Err(Conflict))
            && (w.Ok? ==> w.value.jobs == s.jobs[id := Moved(s.jobs[id].(selected := true), READY, Some("selected"), s.now)]
                          && w.value.scans == Accepted(s, id, scan).scans)
  {
    hide Inv, Moved, Transition, Accepted, Logged, AllowedTransitions;
    ReadyIsAllowed(s, id);
    var u := SelectedStore(s, id, scan);
    SettlesUnlessHeld(u, id, READY, Some("selected"));
  }

  lemma OnlyTheLatestIsClosed(s: Store, s': Store, id: JobId, scan: Option<ScanId>)
    requires AwaitingScan(s, id, scan) && s'.scans == Accepted(s, id, scan).scans
    ensures OnlyScan(s, s', id, scan)
  {
  }

  lemma SelectionIsAsPromised(s: Store, id: JobId, version: Option<int>, scan: Option<ScanId>)
    requires Inv(s) && AwaitingScan(s, id, scan)
    ensures SelectionPromise(s, Next(s, OpSetSelection(id, version, scan)), id, version, scan, Reply(Apply(s, OpSetSelection(id, version, scan))))
  {
    hide Inv, AwaitingScan, OnlyScan, Transition;
    if id in s.jobs && s.jobs[id].state in {AWAITING_SELECTION, NEEDS_REVIEW} {
      SelectedRowMoves(s, id, scan);
      if SetSelection(s, id, version, scan).Ok? {
        OnlyTheLatestIsClosed(s, SetSelection(s, id, version, scan).value, id, scan);
      }
    }
  }

  /** A scan result is accepted exactly if the scan may move there and, when it decides what becomes of
      a job that is still scanning, that job is running. Then the job is where the result sends it, in
      the same transaction; otherwise no job changes. No lane can refuse it. */
  ghost predicate ScanResultPromise(s: Store, s': Store, k: ScanId, status: ScanStatus, r: Result<(), Refusal>) {
    && (r == Err(NotFound) <==> k !in s.scans)
    && (r.Err? ==> r.error in {NotFound, Conflict} && s' == s)
    && (k in s.scans && s.scans[k].job in s.jobs ==>
         var scan, id := s.scans[k], s.scans[k].job;
         var decides := s.jobs[id].state == SCANNING && ScanTarget(status).Some?;
         && (r.Ok? <==> (status == scan.status || status in ScanMoves(scan.status)) && (decides ==> s.jobs[id].control == RUNNING))
         && (r.Ok? ==> s'.scans == s.scans[k := scan.(status := status)])
         && (r.Ok? && !decides ==> s'.jobs == s.jobs)
         && (r.Ok? && decides ==> OnlyRow(s, s', id) && var j' := s'.jobs[id];
              Some(j'.state) == ScanTarget(status) && j'.control == RUNNING && j'.version == s.jobs[id].version + 1
              && (j'.state == FAILED ==> j'.resume == Some(SCANNING) && j'.error.Some?)))
  }

  lemma ScannedStore(s: Store, k: ScanId, status: ScanStatus) returns (u: Store)
    requires Inv(s) && k in s.scans && s.scans[k].job in s.jobs
    ensures Inv(u) && u == Logged(WithScan(s, k, status), s.scans[k].job, ScanChange, None, None)
    ensures u.jobs == s.jobs && u.scans == WithScan(s, k, status).scans && u.now == s.now
  {
    hide Inv;
    ScanChangeKeepsInv(s, k, s.scans[k].(status := status));
    LineKeepsInv(WithScan(s, k, status), s.scans[k].job, ScanChange);
    u := Logged(WithScan(s, k, status), s.scans[k].job, ScanChange, None, None);
  }

  lemma ResultIsAllowed(j: Job, status: ScanStatus)
    requires j.state == SCANNING && ScanTarget(status).Some?
    ensures ScanTarget(status).value in AllowedTransitions(j.state, j.resume)
    ensures ScanTarget(status).value !in PREPARATION_ACTIVE_STATES + BLOCKING_STATES && ScanTarget(status).value != CANCELLED
  {
  }

  lemma ScanResultMoves(s: Store, k: ScanId, status: ScanStatus, message: Option<string>)
    requires Inv(s) && k in s.scans && s.scans[k].job in s.jobs && s.jobs[s.scans[k].job].state == SCANNING && ScanTarget(status).Some?
    ensures var id, target := s.scans[k].job, ScanTarget(status).value;
            var w := Transition(Logged(WithScan(s, k, status), id, ScanChange, None, None), id, target, message);
            && (w.Ok? <==> s.jobs[id].control == RUNNING) && (w.Err? ==> w == Err(Conflict))
            && (w.Ok? ==> w.value.jobs == s.jobs[id := Moved(s.jobs[id], target, message, s.now)] && w.value.scans == WithScan(s, k, status).scans)
  {
    hide Inv, Moved, Transition, Logged, AllowedTransitions;
    var id := s.scans[k].job;
    var u := ScannedStore(s, k, status);
    ResultIsAllowed(s.jobs[id], status);
    SettlesUnlessHeld(u, id, ScanTarget(status).value, message);
  }

  lemma ScanHasJob(s: Store, k: ScanId)
    requires Inv(s) && k in s.scans
    ensures s.scans[k].job in s.jobs
  {
  }

  lemma ResultRow(s: Store, id: JobId, target: JobState, message: Option<string>)
    requires id in s.jobs && s.jobs[id].state == SCANNING && target in {AWAITING_SELECTION, READY, FAILED}
    ensures var j' := Moved(s.jobs[id], target, message, s.now);
            && j'.state == target && j'.control == s.jobs[id].control && j'.version == s.jobs[id].version + 1
            && (target == FAILED ==> j'.resume == Some(SCANNING) && j'.error.Some?)
  {
  }

  lemma ScanResultIsAsPromised(s: Store, k: ScanId, status: ScanStatus, message: Option<string>)
    requires Inv(s)
    ensures ScanResultPromise(s, Next(s, OpUpdateScan(k, status, message)), k, status, Reply(Apply(s, OpUpdateScan(k, status, message))))
  {
    hide Inv, Transition, Moved;
    if k in s.scans {
      ScanHasJob(s, k);
      if s.jobs[s.scans[k].job].state == SCANNING && ScanTarget(status).Some? {
        ScanResultMoves(s, k, status, message);
        ResultRow(s, s.scans[k].job, ScanTarget(status).value, message);
      }
    }
  }
}
