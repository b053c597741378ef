/** What every run of the job database guarantees: the control protocol, legal moves, growing
    versions, and what an operator may rely on. */
module JobProtocol {

  import opened Wrappers
  import opened JobStates
  import opened JobModel
  import opened JobSafety
  import opened EncodeSeconds

  // ---- one step, one row --------------------------------------------------------------------

  /** A move of the pipeline that some transaction may make. */
  predicate LegalMove(j: Job, target: JobState) {
    || target in AllowedTransitions(j.state, j.resume)
    || (j.state == FAILED && j.resume == Some(target) && target in RETRYABLE_FAILED_STAGES)
    || (j.state == CANCELLED && target in {QUEUED, AWAITING_SELECTION, READY})
  }

  /** Operator control is honoured: a held job stands still, a cancellation ends only in
      (CANCELLED, RUNNING), and a working job is cancelled only by its worker. */
  predicate Honoured(j: Job, j': Job, op: Op) {
    && (j.control != RUNNING && j'.state != j.state ==> j'.state == CANCELLED)
    && (j.control == CANCEL_REQUESTED ==>
         (j'.state == j.state && j'.control == j.control) || (j'.state == CANCELLED && j'.control == RUNNING))
    && (j.state in CONTROL_ACTIVE_STATES && j.control != PAUSED && j'.state == CANCELLED ==> op.OpAcknowledgeCancel?)
  }

  /** Optimistic versions: never back, and forward with every change they guard. */
  predicate Grows(j: Job, j': Job) {
    && j'.version >= j.version && j'.controlRevision >= j.controlRevision
    && (j'.state != j.state ==> j'.version > j.version)
    && (j'.control != j.control ==> j'.controlRevision > j.controlRevision)
  }

  /** Progress never falls, except where a stage is replayed on purpose. */
  predicate Advances(j: Job, j': Job) {
    j.progress.Some? ==>
      j'.progress.Some? && (j'.progress.value >= j.progress.value
                            || (j.state == NEEDS_REVIEW && j'.state == READY) || j.state == FAILED || j.state == CANCELLED)
  }

  predicate StepOK(j: Job, j': Job, op: Op) {
    Honoured(j, j', op) && Grows(j, j') && Advances(j, j') && (j'.state != j.state ==> LegalMove(j, j'.state))
  }

  /** Every row that survives does so by a legal step. */
  predicate RowsStep(s: Store, s': Store, op: Op) {
    forall id | id in s.jobs && id in s'.jobs :: StepOK(s.jobs[id], s'.jobs[id], op)
  }

  lemma OneRowSteps(s: Store, s': Store, op: Op, id: JobId, j': Job)
    requires id in s.jobs && s'.jobs == s.jobs[id := j'] && StepOK(s.jobs[id], j', op)
    ensures RowsStep(s, s', op)
  {
  }

  lemma MoveSteps(s: Store, id: JobId, target: JobState, message: Option<string>, op: Op)
    requires id in s.jobs && JobOK(s.jobs[id]) && target != CANCELLED && Transition(s, id, target, message).Ok?
    ensures RowsStep(s, Transition(s, id, target, message).value, op)
  {
    hide Lanes;
    var j := s.jobs[id];
    MoveKeepsRow(j, target, message, s.now);
    OneRowSteps(s, Transition(s, id, target, message).value, op, id, Moved(j, target, message, s.now));
  }

  lemma ControlSteps(s: Store, id: JobId, target: Control, kind: EventKind, op: Op)
    requires id in s.jobs && JobOK(s.jobs[id]) && s.jobs[id].state !in TERMINAL_STATES && s.jobs[id].control != CANCEL_REQUESTED
    requires SetControl(s, id, target, kind).Ok?
    ensures RowsStep(s, SetControl(s, id, target, kind).value, op)
  {
    hide Lanes;
    var j := s.jobs[id];
    OneRowSteps(s, SetControl(s, id, target, kind).value, op, id, j.(control := target, controlRevision := j.controlRevision + 1));
  }

  lemma CancelSteps(s: Store, id: JobId, op: Op)
    requires id in s.jobs && JobOK(s.jobs[id]) && Lanes(s.jobs) && s.jobs[id].state !in TERMINAL_STATES
    requires op.OpAcknowledgeCancel? || s.jobs[id].state !in CONTROL_ACTIVE_STATES || s.jobs[id].control == PAUSED
    ensures Cancel(s, id).Ok? && RowsStep(s, Cancel(s, id).value, op)
  {
    hide Lanes, Cancel;
    CancelIsFree(s, id);
    MoveKeepsRow(s.jobs[id], CANCELLED, None, s.now);
    OneRowSteps(s, Cancel(s, id).value, op, id, CancelledRow(s.jobs[id], s.now));
  }

  lemma SelectionIsAMove(s: Store, id: JobId, version: Option<int>, scan: Option<ScanId>) returns (accepted: Store)
    requires Inv(s) && SetSelection(s, id, version, scan).Ok?
    ensures id in s.jobs && accepted.jobs == s.jobs[id := s.jobs[id].(selected := true)] && JobOK(accepted.jobs[id])
    ensures SetSelection(s, id, version, scan) == Transition(accepted, id, READY, Some("selected"))
  {
    RowIsOK(s, id);
    hide Inv, Transition;
    var selected := Logged(WithJob(s, id, s.jobs[id].(selected := true)), id, Selection, None, None);
    accepted := Accepted(selected, id, scan);
  }

  lemma SelectionSteps(s: Store, id: JobId, version: Option<int>, scan: Option<ScanId>, op: Op)
    requires Inv(s) && SetSelection(s, id, version, scan).Ok?
    ensures RowsStep(s, SetSelection(s, id, version, scan).value, op)
  {
    hide Inv, SetSelection, Transition, Accepted, StepOK, JobOK;
    var accepted := SelectionIsAMove(s, id, version, scan);
    MoveSteps(accepted, id, READY, Some("selected"), op);
    var s' := SetSelection(s, id, version, scan).value;
    forall o | o in s.jobs && o in s'.jobs ensures StepOK(s.jobs[o], s'.jobs[o], op) {
      assert StepOK(accepted.jobs[o], s'.jobs[o], op);
      StepIgnoresSelection(s.jobs[o], s'.jobs[o], op);
    }
  }

  lemma StepIgnoresSelection(j: Job, j': Job, op: Op)
    ensures StepOK(j.(selected := true), j', op) ==> StepOK(j, j', op)
  {
  }

  lemma ScanSteps(s: Store, op: Op)
    requires Inv(s) && (op.OpCreateScan? || op.OpUpdateScan?) && Apply(s, op).Ok?
    ensures RowsStep(s, Apply(s, op).value, op)
  {
    hide Lanes, Histories, LogOrdered, Transition;
    if op.OpUpdateScan? {
      var k, status := op.scan_, op.status;
      var id := s.scans[k].job;
      assert JobOK(s.jobs[id]);
      var updated := Logged(WithScan(s, k, status), id, ScanChange, None, None);
      assert updated.jobs == s.jobs;
      if s.jobs[id].state == SCANNING && ScanTarget(status).Some? {
        MoveSteps(updated, id, ScanTarget(status).value, op.message, op);
      }
    }
  }

  lemma RequestPauseSteps(s: Store, id: JobId, revision: Option<int>, op: Op)
    requires Inv(s) && RequestPause(s, id, revision).Ok?
    ensures RowsStep(s, RequestPause(s, id, revision).value, op)
  {
    var j := s.jobs[id];
    RowIsOK(s, id);
    hide Inv, SetControl, RowsStep, JobOK;
    SameRows(s, s, op);
    if j.control == RUNNING {
      ControlSteps(s, id, if j.state in CONTROL_ACTIVE_STATES then PAUSE_REQUESTED else PAUSED, PauseRequested, op);
    }
  }

  lemma AcknowledgePauseSteps(s: Store, id: JobId, revision: Option<int>, op: Op)
    requires Inv(s) && AcknowledgePause(s, id, revision).Ok?
    ensures RowsStep(s, AcknowledgePause(s, id, revision).value, op)
  {
    var j := s.jobs[id];
    RowIsOK(s, id);
    assert j.control == PAUSE_REQUESTED ==> j.state !in TERMINAL_STATES;
    hide Inv, SetControl, RowsStep, JobOK;
    SameRows(s, s, op);
    if j.control == PAUSE_REQUESTED {
      ControlSteps(s, id, PAUSED, EventKind.Paused, op);
    }
  }

  lemma ResumeSteps(s: Store, id: JobId, revision: Option<int>, op: Op)
    requires Inv(s) && ResumePaused(s, id, revision).Ok?
    ensures RowsStep(s, ResumePaused(s, id, revision).value, op)
  {
    RowIsOK(s, id);
    hide Inv, SetControl, RowsStep, JobOK;
    ControlSteps(s, id, RUNNING, Resumed, op);
  }

  lemma RequestCancelSteps(s: Store, id: JobId, revision: Option<int>, op: Op)
    requires Inv(s) && RequestCancel(s, id, revision).Ok?
    ensures RowsStep(s, RequestCancel(s, id, revision).value, op)
  {
    var j := s.jobs[id];
    RowIsOK(s, id);
    assert Lanes(s.jobs);
    hide Inv, Lanes, SetControl, Cancel, RowsStep, JobOK;
    SameRows(s, s, op);
    if j.state !in TERMINAL_STATES && j.control != CANCEL_REQUESTED {
      if j.state in CONTROL_ACTIVE_STATES && j.control != PAUSED {
        ControlSteps(s, id, CANCEL_REQUESTED, CancelRequested, op);
      } else {
        CancelSteps(s, id, op);
      }
    }
  }

  lemma AcknowledgeCancelSteps(s: Store, id: JobId, revision: Option<int>, op: Op)
    requires Inv(s) && op.OpAcknowledgeCancel? && AcknowledgeCancel(s, id, revision).Ok?
    ensures RowsStep(s, AcknowledgeCancel(s, id, revision).value, op)
  {
    var j := s.jobs[id];
    RowIsOK(s, id);
    assert Lanes(s.jobs);
    assert j.control == CANCEL_REQUESTED ==> j.state !in TERMINAL_STATES;
    hide Inv, Lanes, Cancel, RowsStep, JobOK;
    SameRows(s, s, op);
    if j.state !in TERMINAL_STATES && j.control == CANCEL_REQUESTED {
      CancelSteps(s, id, op);
    }
  }

  lemma RetrySteps(s: Store, id: JobId, version: Option<int>, op: Op)
    requires Inv(s) && RetryFailed(s, id, version).Ok?
    ensures RowsStep(s, RetryFailed(s, id, version).value, op)
  {
    assert id in s.jobs;
    RowIsOK(s, id);
    hide Inv, RetryFailed;
    RetrySucceedsIff(s, id, version);
    var j := s.jobs[id];
    OneRowSteps(s, RetryFailed(s, id, version).value, op, id, Revived(j, j.resume.value));
  }

  lemma RestartSteps(s: Store, id: JobId, version: Option<int>, op: Op)
    requires Inv(s) && RestartCancelled(s, id, version).Ok?
    ensures RowsStep(s, RestartCancelled(s, id, version).value, op)
  {
    RowIsOK(s, id);
    hide Inv, Scanned;
    OneRowSteps(s, RestartCancelled(s, id, version).value, op, id, RestartCancelled(s, id, version).value.jobs[id]);
  }

  lemma NothingSteps(s: Store, op: Op)
    ensures RowsStep(s, s, op)
  {
  }

  lemma ClaimSteps(s: Store, lane: set<JobState>, from: JobState, target: JobState, pick: Option<JobId>, op: Op)
    requires Inv(s) && Picked(s, from, pick) && Claim(s, lane, from, target, pick).Ok? && target != CANCELLED
    ensures RowsStep(s, Claim(s, lane, from, target, pick).value, op)
  {
    hide Inv, Lanes, Busy, Transition, RowsStep;
    if !Busy(s.jobs, lane) && pick.Some? {
      RowIsOK(s, pick.value);
      MoveSteps(s, pick.value, target, Some("claimed"), op);
    } else {
      NothingSteps(s, op);
    }
  }

  lemma SameRows(s: Store, s': Store, op: Op)
    requires s'.jobs == s.jobs
    ensures RowsStep(s, s', op)
  {
  }

  lemma PlainSteps(s: Store, op: Op)
    requires op.OpCreate? || op.OpDelete? || op.OpRecordProgress? || op.OpAddEvent? || op.OpTick?
    requires Apply(s, op).Ok?
    ensures RowsStep(s, Apply(s, op).value, op)
  {
  }

  /** In every state with the invariant, every transaction moves every surviving row by a legal
      step that honours the operator's control and grows its versions. */
  lemma EveryRowSteps(s: Store, op: Op)
    requires Inv(s) && Possible(s, op)
    ensures RowsStep(s, Next(s, op), op)
  {
    if Apply(s, op).Err? {
      hide Apply;
      SameRows(s, Next(s, op), op);
    } else {
      hide Inv, CreateJob, Claim, RequestPause, RequestCancel, AcknowledgePause, AcknowledgeCancel, ResumePaused,
        RetryFailed, RestartCancelled, DeleteTerminal, SetSelection, RecordProgress, CreateScan, UpdateScan, AddEvent, AwaitingScan, Picked,
        RowsStep, Transition;
      match op
      case OpClaim(pick) => ClaimSteps(s, PREPARATION_ACTIVE_STATES, QUEUED, SCANNING, pick, op);
      case OpClaimReady(pick) => ClaimSteps(s, BLOCKING_STATES, READY, ENCODING, pick, op);
      case OpTransition(id, target, message, version) =>
        if target == CANCELLED {
          RequestCancelSteps(s, id, None, op);
        } else {
          RowIsOK(s, id);
          MoveSteps(s, id, target, message, op);
        }
      case OpRequestPause(id, revision) => RequestPauseSteps(s, id, revision, op);
      case OpRequestCancel(id, revision) => RequestCancelSteps(s, id, revision, op);
      case OpAcknowledgePause(id, revision) => AcknowledgePauseSteps(s, id, revision, op);
      case OpAcknowledgeCancel(id, revision) => AcknowledgeCancelSteps(s, id, revision, op);
      case OpResumePaused(id, revision) => ResumeSteps(s, id, revision, op);
      case OpRetryFailed(id, version) => RetrySteps(s, id, version, op);
      case OpRestartCancelled(id, version) => RestartSteps(s, id, version, op);
      case OpSetSelection(id, version, scan) => SelectionSteps(s, id, version, scan, op);
      case OpCreateScan(_, _, _) => ScanSteps(s, op);
      case OpUpdateScan(_, _, _) => ScanSteps(s, op);
      case _ => PlainSteps(s, op);
    }
  }

  lemma RowIsOK(s: Store, id: JobId)
    requires Inv(s) && id in s.jobs
    ensures JobOK(s.jobs[id])
  {
  }

  // ---- theorems over runs -------------------------------------------------------------------

  /** At every moment of every run at most one job that is not paused scans, and at most one is in
      the encode lane. */
  lemma LanesAreExclusive(states: seq<Store>, ops: seq<Op>, k: nat, a: JobId, b: JobId)
    requires Run(states, ops) && k < |states| && a in states[k].jobs && b in states[k].jobs && a != b
    requires states[k].jobs[a].control != PAUSED && states[k].jobs[b].control != PAUSED
    ensures !(states[k].jobs[a].state == SCANNING && states[k].jobs[b].state == SCANNING)
    ensures !(states[k].jobs[a].state in BLOCKING_STATES && states[k].jobs[b].state in BLOCKING_STATES)
  {
    RunKeepsInv(states, ops, k);
    var jobs := states[k].jobs;
    assert Lanes(jobs);
    hide Run, Inv;
    assert Occupies(jobs[a], PREPARATION_ACTIVE_STATES) && Occupies(jobs[b], PREPARATION_ACTIVE_STATES) ==> a == b;
    assert Occupies(jobs[a], BLOCKING_STATES) && Occupies(jobs[b], BLOCKING_STATES) ==> a == b;
  }

  /** The control protocol, row coherence and growing versions, at every step of every run. */
  lemma EveryStepIsLegal(states: seq<Store>, ops: seq<Op>, k: nat, id: JobId)
    requires Run(states, ops) && k < |ops| && id in states[k].jobs && id in states[k + 1].jobs
    ensures JobOK(states[k].jobs[id]) && JobOK(states[k + 1].jobs[id])
    ensures StepOK(states[k].jobs[id], states[k + 1].jobs[id], ops[k])
  {
    RunKeepsInv(states, ops, k);
    RunKeepsInv(states, ops, k + 1);
    RowIsOK(states[k], id);
    RowIsOK(states[k + 1], id);
    hide Inv, JobOK, Next, Possible, StepOK;
    assert Possible(states[k], ops[k]) && states[k + 1] == Next(states[k], ops[k]);
    EveryRowSteps(states[k], ops[k]);
  }

  /** The log of every reachable job is a chain from its creation to its row. */
  lemma LogIsTheHistory(states: seq<Store>, ops: seq<Op>, k: nat, id: JobId, n: nat)
    requires Run(states, ops) && k < |states| && id in states[k].jobs
    ensures var log := LogOf(states[k].events, id);
            && LastMove(log, |log|, EveryLink).Some?
            && log[LastMove(log, |log|, EveryLink).value].to == Some(states[k].jobs[id].state)
            && (n < |log| && log[n].to.Some? ==>
                 match LastMove(log, n, EveryLink)
                 case None => log[n].kind == JobCreated && log[n].from.None? && log[n].to == Some(QUEUED)
                 case Some(m) => log[n].from == log[m].to)
  {
    RunKeepsInv(states, ops, k);
    var s := states[k];
    hide Run, Lanes, LogOrdered, JobOK;
    assert History(LogOf(s.events, id), s.jobs[id].state, s.jobs[id].resume);
    if n < |LogOf(s.events, id)| {
      assert LineOK(LogOf(s.events, id), n);
    }
  }

  /** Hence for every reachable failed job a retry is refused only for its version, its stage, or
      another blocking job. */
  lemma RetryRefusals(states: seq<Store>, ops: seq<Op>, k: nat, id: JobId, version: Option<int>)
    requires Run(states, ops) && k < |states| && id in states[k].jobs && states[k].jobs[id].state == FAILED
    ensures var s := states[k];
            RetryFailed(s, id, version).Ok? <==>
              && Matches(version, s.jobs[id].version)
              && s.jobs[id].resume.Some? && s.jobs[id].resume.value in RETRYABLE_FAILED_STAGES
              && (s.jobs[id].resume == Some(READY) || !OtherBlocking(s, id))
    ensures RetryFailed(states[k], id, version).Ok? ==>
              RetryFailed(states[k], id, version).value.jobs[id].state !in {SCANNING, UPLOADING}
  {
    RunKeepsInv(states, ops, k);
    hide Run, Inv, RetryFailed;
    RetrySucceedsIff(states[k], id, version);
  }

  // ---- the index is needed elsewhere --------------------------------------------------------

  /** When a legal transition is refused by an index: exactly when its row, not being paused, would
      enter a lane that another row holds. */
  lemma IndexRefusesTransitionIff(s: Store, id: JobId, target: JobState, message: Option<string>)
    requires Inv(s) && id in s.jobs && CanMove(s.jobs[id], target)
    ensures Transition(s, id, target, message) == Err(QueueBlocked) <==>
            s.jobs[id].control != PAUSED
            && ((target in PREPARATION_ACTIVE_STATES && Taken(s.jobs, id, PREPARATION_ACTIVE_STATES))
                || (target in BLOCKING_STATES && Taken(s.jobs, id, BLOCKING_STATES)))
  {
    var j' := Moved(s.jobs[id], target, message, s.now);
    assert Lanes(s.jobs);
    hide Inv, LaneFree, Taken;
    IndexRefusesIff(s.jobs, id, j');
    assert AfterMove(s, id, target, message).jobs == s.jobs[id := j'];
  }

  /** When a paused job may not resume. */
  lemma IndexRefusesResumeIff(s: Store, id: JobId)
    requires Inv(s) && id in s.jobs && s.jobs[id].control == PAUSED
    ensures ResumePaused(s, id, None) == Err(QueueBlocked) <==>
            (s.jobs[id].state in PREPARATION_ACTIVE_STATES && Taken(s.jobs, id, PREPARATION_ACTIVE_STATES))
            || (s.jobs[id].state in BLOCKING_STATES && Taken(s.jobs, id, BLOCKING_STATES))
  {
    hide Inv, LaneFree, Taken, Lanes;
    RowIsOK(s, id);
    LanesHold(s);
    var j := s.jobs[id];
    var j' := j.(control := RUNNING, controlRevision := j.controlRevision + 1);
    IndexRefusesIff(s.jobs, id, j');
    assert AfterControl(s, id, RUNNING, Resumed).jobs == s.jobs[id := j'];
  }

  // ---- advertised operations ----------------------------------------------------------------

  /** What a client is told it may do. */
  function AllowedOperations(j: Job): set<Operation> {
    if j.state == COMPLETED then {DoCleanup, DoDelete, DoPrepareRelease, DoDeleteRelease}
    else if j.state == FAILED then {DoRetryFailed, DoDelete}
    else if j.state == CANCELLED then {DoRestartCancelled, DoDelete}
    else if j.control == CANCEL_REQUESTED then {}
    else if j.control == PAUSE_REQUESTED then {DoCancel}
    else if j.control == PAUSED then {DoResume, DoCancel}
    else {DoPause, DoCancel}
  }

  /** A pause is advertised exactly when requesting it is accepted and does something. */
  lemma AdvertisedPauseIffEffective(s: Store, id: JobId)
    requires Inv(s) && id in s.jobs
    ensures DoPause in AllowedOperations(s.jobs[id]) <==> RequestPause(s, id, None).Ok? && RequestPause(s, id, None).value != s
  {
    hide Inv, Lanes, SetControl, AfterControl;
    var j := s.jobs[id];
    RowIsOK(s, id);
    LanesHold(s);
    HoldingIsFree(s, id, PAUSED, PauseRequested);
    if j.control != PAUSED {
      HoldingIsFree(s, id, PAUSE_REQUESTED, PauseRequested);
    }
  }

  /** A cancellation is advertised exactly when requesting it is accepted and does something. */
  lemma AdvertisedCancelIffEffective(s: Store, id: JobId)
    requires Inv(s) && id in s.jobs
    ensures DoCancel in AllowedOperations(s.jobs[id]) <==> RequestCancel(s, id, None).Ok? && RequestCancel(s, id, None).value != s
  {
    hide Inv, Lanes, SetControl, AfterControl, Cancel;
    var j := s.jobs[id];
    RowIsOK(s, id);
    LanesHold(s);
    if j.state !in TERMINAL_STATES {
      CancelDoesSomething(s, id);
      if j.control != PAUSED {
        HoldingIsFree(s, id, CANCEL_REQUESTED, CancelRequested);
      }
    }
  }

  lemma LanesHold(s: Store)
    requires Inv(s)
    ensures Lanes(s.jobs)
  {
  }

  lemma CancelDoesSomething(s: Store, id: JobId)
    requires Lanes(s.jobs) && id in s.jobs && s.jobs[id].state !in TERMINAL_STATES
    ensures Cancel(s, id).Ok? && Cancel(s, id).value != s
  {
    hide Lanes, Cancel, Moved;
    CancelIsFree(s, id);
    assert AfterControl(AfterMove(s, id, CANCELLED, None), id, RUNNING, EventKind.Cancelled).nextEvent == s.nextEvent + 2;
  }

  /** Resuming is advertised exactly when it is accepted, or stopped only by an occupied lane. */
  lemma AdvertisedResumeIffAccepted(s: Store, id: JobId)
    requires Inv(s) && id in s.jobs
    ensures DoResume in AllowedOperations(s.jobs[id]) <==> ResumePaused(s, id, None).Ok? || ResumePaused(s, id, None) == Err(QueueBlocked)
  {
    RowIsOK(s, id);
    hide Inv, Lanes, AfterControl;
  }

  /** Of the other operations, restart and deletion are accepted exactly when advertised; a retry
      never is unless advertised, but may be refused all the same. */
  lemma AdvertisedRevivalIffAccepted(s: Store, id: JobId)
    requires Inv(s) && id in s.jobs
    ensures DoRestartCancelled in AllowedOperations(s.jobs[id]) <==> RestartCancelled(s, id, None).Ok?
    ensures DoDelete in AllowedOperations(s.jobs[id]) <==> DeleteTerminal(s, id, None, true).Ok?
    ensures DoRetryFailed !in AllowedOperations(s.jobs[id]) ==> RetryFailed(s, id, None) == Err(Conflict)
  {
    hide Inv, Lanes, Scanned, LatestLink, Without;
  }

  /** Requests and pauses never trip the index. */
  lemma HoldingIsFree(s: Store, id: JobId, target: Control, kind: EventKind)
    requires Lanes(s.jobs) && id in s.jobs
    requires target == PAUSED || (target in {PAUSE_REQUESTED, CANCEL_REQUESTED} && s.jobs[id].control != PAUSED)
    ensures SetControl(s, id, target, kind) == Ok(AfterControl(s, id, target, kind))
    ensures AfterControl(s, id, target, kind).nextEvent != s.nextEvent
  {
    hide Lanes;
    var j' := s.jobs[id].(control := target, controlRevision := s.jobs[id].controlRevision + 1);
    LeavingIsFree(s.jobs, id, j');
    assert AfterControl(s, id, target, kind).jobs == s.jobs[id := j'];
  }

  // ---- encode time of a stored job ----------------------------------------------------------

  lemma {:induction false} LogOfIsAPart(events: seq<Event>, id: JobId)
    ensures forall e :: e in LogOf(events, id) <==> e in events && e.job == id
  {
    if events != [] {
      LogOfIsAPart(events[..|events| - 1], id);
      assert events == events[..|events| - 1] + [Last(events)];
    }
  }

  lemma LastIsLatest(events: seq<Event>)
    requires InOrder(events) && events != []
    ensures InOrder(events[..|events| - 1])
    ensures forall x | x in events[..|events| - 1] :: x.id < Last(events).id && x.at <= Last(events).at
  {
    var init := events[..|events| - 1];
    forall x | x in init ensures x.id < Last(events).id && x.at <= Last(events).at {
      var k :| 0 <= k < |init| && init[k] == x;
      assert events[k] == x;
    }
  }

  lemma OrderGrows(log: seq<Event>, e: Event)
    requires InOrder(log) && forall x | x in log :: x.id < e.id && x.at <= e.at
    ensures InOrder(log + [e])
  {
    forall i | 0 <= i < |log| ensures log[i].id < e.id && log[i].at <= e.at {
      assert log[i] in log;
    }
  }

  lemma {:induction false} LogOfIsOrdered(events: seq<Event>, id: JobId)
    requires InOrder(events)
    ensures InOrder(LogOf(events, id))
  {
    if events != [] {
      var init, e := events[..|events| - 1], Last(events);
      LastIsLatest(events);
      LogOfIsOrdered(init, id);
      LogOfIsAPart(init, id);
      hide InOrder;
      if e.job == id {
        OrderGrows(LogOf(init, id), e);
      } else {
        assert LogOf(events, id) == LogOf(init, id) + [] == LogOf(init, id);
      }
    }
  }

  lemma SortedIsItself(log: seq<Event>)
    requires InOrder(log)
    ensures Sorted(log) == log && Ordered(log)
  {
    assert Ordered(log);
    SortedKeepsOrdered(log);
  }

  /** For every reachable job, the encode time computed from its log is the time its row stood in
      ENCODING outside completed pauses, less exactly what a retry put there. */
  lemma EncodeTimeOfAReachableJob(states: seq<Store>, ops: seq<Op>, k: nat, id: JobId)
    requires Run(states, ops) && k < |states| && id in states[k].jobs
    ensures var log := LogOf(states[k].events, id);
            && Sorted(log) == log && LeavesEncodingByState(log)
            && |EncodedTicks(log, EveryLink)| == |EncodedTicks(log, StateEventsOnly)| + |RetriedTicks(log)|
  {
    RunKeepsInv(states, ops, k);
    var s := states[k];
    assert LogOrdered(s) && History(LogOf(s.events, id), s.jobs[id].state, s.jobs[id].resume);
    hide Run, Inv, EncodedTicks, RetriedTicks;
    var log := LogOf(s.events, id);
    LogOfIsOrdered(s.events, id);
    SortedIsItself(log);
    ChainLeavesEncodingByState(log);
    LostTimeIsRetriedTime(log);
  }

  lemma ChainLeavesEncodingByState(log: seq<Event>)
    requires forall n | 0 <= n < |log| :: LineOK(log, n)
    ensures LeavesEncodingByState(log)
  {
    forall n | 0 <= n < |log| && EndsSegment(log, n, EveryLink) ensures log[n].kind == StateChange {
      assert LineOK(log, n);
    }
  }

  // ---- a run that needs the index -----------------------------------------------------------

  lemma RunGrows(states: seq<Store>, ops: seq<Op>, op: Op)
    requires Run(states, ops) && Possible(Last(states), op)
    ensures Run(states + [Next(Last(states), op)], ops + [op])
  {
    hide Next, Possible;
    var more := states + [Next(Last(states), op)];
    forall k | 0 <= k < |ops| + 1 ensures Possible(more[k], (ops + [op])[k]) && more[k + 1] == Next(more[k], (ops + [op])[k]) {
      if k < |ops| {
        assert more[k] == states[k] && more[k + 1] == states[k + 1] && (ops + [op])[k] == ops[k];
      }
    }
  }

  /** One job encodes while the other scans. */
  ghost predicate EncodingBesideScanning(s: Store) {
    && s.jobs.Keys == {1, 2}
    && s.jobs[1].state == ENCODING && s.jobs[1].control == RUNNING
    && s.jobs[2].state == SCANNING && s.jobs[2].control == RUNNING
  }

  /** Sending the scanned job to review is legal, and only the index prevents two jobs in one lane. */
  lemma ReviewNeedsTheIndex(s: Store)
    requires Inv(s) && EncodingBesideScanning(s)
    ensures CanMove(s.jobs[2], NEEDS_REVIEW) && Transition(s, 2, NEEDS_REVIEW, None) == Err(QueueBlocked)
  {
    assert 1 in s.jobs && Occupies(s.jobs[1], BLOCKING_STATES);
    IndexRefusesTransitionIff(s, 2, NEEDS_REVIEW, None);
  }

  ghost predicate Stands(s: Store, id: JobId, state: JobState) {
    id in s.jobs && s.jobs[id].state == state && s.jobs[id].control == RUNNING
  }

  lemma OnlyOneIsNext(s: Store, id: JobId, state: JobState)
    requires Stands(s, id, state) && forall o | o in s.jobs && o != id :: s.jobs[o].state != state
    ensures Picked(s, state, Some(id))
  {
  }

  lemma CreatedStands(s: Store, id: JobId)
    requires id !in s.jobs
    ensures Stands(Next(s, OpCreate(id, 0)), id, QUEUED) && Next(s, OpCreate(id, 0)).jobs == s.jobs[id := Next(s, OpCreate(id, 0)).jobs[id]]
  {
  }

  lemma ClaimedStands(s: Store, id: JobId)
    requires Inv(s) && Stands(s, id, QUEUED) && !Busy(s.jobs, PREPARATION_ACTIVE_STATES)
    requires Picked(s, QUEUED, Some(id))
    ensures var s' := Next(s, OpClaim(Some(id)));
            Stands(s', id, SCANNING) && s'.jobs == s.jobs[id := s'.jobs[id]]
  {
    hide Inv, Busy, Picked, Claim;
    ClaimIsNeverRefused(s, PREPARATION_ACTIVE_STATES, QUEUED, SCANNING, Some(id));
  }

  lemma ReadyStands(s: Store, id: JobId)
    requires Inv(s) && Stands(s, id, SCANNING)
    ensures var s' := Next(s, OpTransition(id, READY, None, None));
            Stands(s', id, READY) && s'.jobs == s.jobs[id := s'.jobs[id]]
  {
    hide Inv, Lanes, Baseline, AtLeast;
    LanesHold(s);
    LeavingIsFree(s.jobs, id, Moved(s.jobs[id], READY, None, s.now));
    assert AfterMove(s, id, READY, None).jobs == s.jobs[id := Moved(s.jobs[id], READY, None, s.now)];
  }

  lemma EncodingStands(s: Store, id: JobId)
    requires Inv(s) && Stands(s, id, READY) && !Busy(s.jobs, BLOCKING_STATES)
    requires Picked(s, READY, Some(id))
    ensures var s' := Next(s, OpClaimReady(Some(id)));
            Stands(s', id, ENCODING) && s'.jobs == s.jobs[id := s'.jobs[id]]
  {
    hide Inv, Busy, Picked, Claim;
    ClaimIsNeverRefused(s, BLOCKING_STATES, READY, ENCODING, Some(id));
  }

  /** Such a store is reachable: the refusal above happens in a real run. */
  lemma EncodingBesideScanningIsReachable() returns (states: seq<Store>, ops: seq<Op>)
    ensures Run(states, ops) && EncodingBesideScanning(Last(states)) && Inv(Last(states))
  {
    hide Inv, Next, Possible, Picked, Busy;
    states, ops := [EmptyStore(0)], [];
    EmptyIsSafe(0);
    var s := EmptyStore(0);
    CreatedStands(s, 1);
    states, ops, s := Extended(states, ops, OpCreate(1, 0));
    OnlyOneIsNext(s, 1, QUEUED);
    NobodyIn(s, PREPARATION_ACTIVE_STATES);
    ClaimedStands(s, 1);
    ClaimsArePossible(s, Some(1));
    states, ops, s := Extended(states, ops, OpClaim(Some(1)));
    ReadyStands(s, 1);
    states, ops, s := Extended(states, ops, OpTransition(1, READY, None, None));
    OnlyOneIsNext(s, 1, READY);
    NobodyIn(s, BLOCKING_STATES);
    EncodingStands(s, 1);
    ClaimsArePossible(s, Some(1));
    states, ops, s := Extended(states, ops, OpClaimReady(Some(1)));
    CreatedStands(s, 2);
    states, ops, s := Extended(states, ops, OpCreate(2, 0));
    OnlyOneIsNext(s, 2, QUEUED);
    NobodyIn(s, PREPARATION_ACTIVE_STATES);
    ClaimedStands(s, 2);
    ClaimsArePossible(s, Some(2));
    states, ops, s := Extended(states, ops, OpClaim(Some(2)));
  }

  lemma NobodyIn(s: Store, lane: set<JobState>)
    requires forall o | o in s.jobs :: s.jobs[o].state !in lane
    ensures !Busy(s.jobs, lane)
  {
  }

  lemma ClaimsArePossible(s: Store, pick: Option<JobId>)
    ensures Picked(s, QUEUED, pick) ==> Possible(s, OpClaim(pick))
    ensures Picked(s, READY, pick) ==> Possible(s, OpClaimReady(pick))
  {
  }

  lemma Extended(states: seq<Store>, ops: seq<Op>, op: Op) returns (states': seq<Store>, ops': seq<Op>, s': Store)
    requires Run(states, ops) && Inv(Last(states))
    requires op.OpCreate? || op.OpTransition? || Possible(Last(states), op)
    ensures Run(states', ops') && states' != [] && s' == Last(states') == Next(Last(states), op) && Inv(s')
  {
    assert Possible(Last(states), op);
    hide Inv, Next, Possible;
    RunGrows(states, ops, op);
    StepKeepsInv(Last(states), op);
    s' := Next(Last(states), op);
    states', ops' := states + [s'], ops + [op];
  }
}
