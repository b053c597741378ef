/** What every write transaction keeps: exclusive lanes, the control protocol, coherent rows, and
    a log that is the history of every job. */
module JobSafety {

  import opened Wrappers
  import opened JobStates
  import opened JobModel
  import opened EncodeSeconds

  // ---- rows ---------------------------------------------------------------------------------

  predicate Reviewable(state: JobState) {
    state !in TERMINAL_STATES && state !in {NEEDS_REVIEW, QUEUED, AWAITING_SELECTION}
  }

  /** A coherent row; the control clause for terminal states is separate. */
  predicate RowOK(j: Job) {
    && (j.control == PAUSE_REQUESTED || j.control == CANCEL_REQUESTED ==> j.state in CONTROL_ACTIVE_STATES)
    && (j.resume.Some? <==> j.state == NEEDS_REVIEW || j.state == FAILED)
    && (j.state == NEEDS_REVIEW ==> Reviewable(j.resume.value))
    && (j.state == FAILED ==> j.resume.value !in TERMINAL_STATES)
    && (j.finishedAt.Some? <==> j.state in TERMINAL_STATES)
    && (j.error.Some? <==> j.state == FAILED)
    && (j.progress.Some? ==> 0.0 <= j.progress.value <= 1.0)
    && j.version >= 1 && j.controlRevision >= 1
  }

  predicate JobOK(j: Job) { RowOK(j) && (j.state in TERMINAL_STATES ==> j.control == RUNNING) }

  lemma MoveKeepsRow(j: Job, target: JobState, message: Option<string>, now: int)
    requires JobOK(j) && CanMove(j, target)
    ensures var j' := Moved(j, target, message, now);
            && j'.control == j.control && j'.controlRevision == j.controlRevision && j'.version > j.version
            && (j.control == RUNNING ==> JobOK(j')) && (target == CANCELLED ==> JobOK(j'.(control := RUNNING)))
            && (target == FAILED ==> j'.resume == Some(j.state))
            && (j'.priority == j.priority && j'.createdAt == j.createdAt)
            && (j.progress.Some? && !(j.state == NEEDS_REVIEW && target == READY) ==>
                 j'.progress.Some? && j'.progress.value >= j.progress.value)
  {
  }

  // ---- the log of one job -------------------------------------------------------------------

  function LogOf(events: seq<Event>, id: JobId): seq<Event> {
    if events == [] then []
    else LogOf(events[..|events| - 1], id) + (if Last(events).job == id then [Last(events)] else [])
  }

  /** One link of the chain: it starts where the job stood, and only failed and cancelled jobs are
      left by anything but a state change. */
  predicate Links(stood: JobState, e: Event) {
    && e.from == Some(stood) && e.to.Some?
    && match e.kind
       case StateChange => stood !in TERMINAL_STATES
       case Retry => stood == FAILED && e.to.value in RETRYABLE_FAILED_STAGES
       case Restart => stood == CANCELLED && e.to.value in {QUEUED, AWAITING_SELECTION, READY}
       case _ => false
  }

  ghost predicate LineOK(log: seq<Event>, n: nat)
    requires n < |log|
  {
    var e := log[n];
    if e.to.None? then e.from.None?
    else
      match LastMove(log, n, EveryLink)
      case None => e.kind == JobCreated && e.from.None? && e.to == Some(QUEUED)
      case Some(m) => Links(log[m].to.value, e)
  }

  /** The log is the history of the row: a chain of states from the creation to where it stands;
      a failed job's last link is the failure of its resume state. */
  ghost predicate History(log: seq<Event>, state: JobState, resume: Option<JobState>) {
    && (forall n | 0 <= n < |log| :: LineOK(log, n))
    && match LastMove(log, |log|, EveryLink)
       case None => false
       case Some(m) => log[m].to == Some(state) && (state == FAILED ==> log[m].kind == StateChange && log[m].from == resume)
  }

  lemma {:induction false} EarlierMove(log: seq<Event>, e: Event, n: nat)
    requires n <= |log|
    ensures LastMove(log + [e], n, EveryLink) == LastMove(log, n, EveryLink)
  {
    if n > 0 {
      EarlierMove(log, e, n - 1);
    }
  }

  lemma EarlierLinesStay(log: seq<Event>, e: Event)
    requires forall n | 0 <= n < |log| :: LineOK(log, n)
    ensures forall n | 0 <= n < |log| :: LineOK(log + [e], n)
  {
    forall n | 0 <= n < |log| ensures LineOK(log + [e], n) {
      EarlierMove(log, e, n);
      assert (log + [e])[n] == log[n] && LineOK(log, n);
    }
  }

  lemma HistoryGrows(log: seq<Event>, e: Event, state: JobState, resume: Option<JobState>, state': JobState, resume': Option<JobState>)
    requires History(log, state, resume)
    requires e.to.None? ==> e.from.None? && state' == state && resume' == resume
    requires e.to.Some? ==> Links(state, e) && e.to == Some(state')
    requires e.to.Some? && state' == FAILED ==> e.kind == StateChange && resume' == Some(state)
    ensures History(log + [e], state', resume')
  {
    EarlierLinesStay(log, e);
    EarlierMove(log, e, |log|);
    assert (log + [e])[..|log|] == log;
    assert LineOK(log + [e], |log|);
  }

  // ---- the whole store ----------------------------------------------------------------------

  ghost predicate InOrder(events: seq<Event>) {
    forall i, j | 0 <= i < j < |events| :: events[i].id < events[j].id && events[i].at <= events[j].at
  }

  /** Events are in the order of their identifiers and of the clock. */
  ghost predicate LogOrdered(s: Store) {
    && InOrder(s.events)
    && (forall i | 0 <= i < |s.events| :: s.events[i].id < s.nextEvent && s.events[i].at <= s.now && s.events[i].job in s.jobs)
  }

  ghost predicate Histories(s: Store) {
    forall id | id in s.jobs :: History(LogOf(s.events, id), s.jobs[id].state, s.jobs[id].resume)
  }

  ghost predicate Inv(s: Store) {
    && (forall id | id in s.jobs :: JobOK(s.jobs[id]))
    && Lanes(s.jobs)
    && LogOrdered(s)
    && Histories(s)
    && (forall k | k in s.scans :: s.scans[k].job in s.jobs)
  }

  lemma LogOfGrows(events: seq<Event>, e: Event, id: JobId)
    ensures LogOf(events + [e], id) == LogOf(events, id) + (if e.job == id then [e] else [])
  {
    assert (events + [e])[..|events|] == events;
  }

  /** One row changes and one line about it is appended. */
  lemma LoggedChangeKeepsInv(s: Store, id: JobId, j': Job, kind: EventKind, from: Option<JobState>, to: Option<JobState>)
    requires Inv(s) && id in s.jobs && JobOK(j') && Lanes(s.jobs[id := j'])
    requires to.None? ==> from.None? && j'.state == s.jobs[id].state && j'.resume == s.jobs[id].resume
    requires to.Some? ==> Links(s.jobs[id].state, Event(0, id, kind, from, to, 0)) && to == Some(j'.state)
    requires to.Some? && j'.state == FAILED ==> kind == StateChange && j'.resume == Some(s.jobs[id].state)
    ensures Inv(Logged(WithJob(s, id, j'), id, kind, from, to))
  {
    hide Lanes, JobOK, Histories, LogOrdered, Links;
    LoggedChangeKeepsLog(s, id, j', kind, from, to);
  }

  lemma LoggedChangeKeepsLog(s: Store, id: JobId, j': Job, kind: EventKind, from: Option<JobState>, to: Option<JobState>)
    requires LogOrdered(s) && Histories(s) && id in s.jobs
    requires to.None? ==> from.None? && j'.state == s.jobs[id].state && j'.resume == s.jobs[id].resume
    requires to.Some? ==> Links(s.jobs[id].state, Event(0, id, kind, from, to, 0)) && to == Some(j'.state)
    requires to.Some? && j'.state == FAILED ==> kind == StateChange && j'.resume == Some(s.jobs[id].state)
    ensures LogOrdered(Logged(WithJob(s, id, j'), id, kind, from, to)) && Histories(Logged(WithJob(s, id, j'), id, kind, from, to))
  {
    hide Lanes, JobOK, History;
    var s' := Logged(WithJob(s, id, j'), id, kind, from, to);
    var e := Last(s'.events);
    forall o | o in s'.jobs ensures History(LogOf(s'.events, o), s'.jobs[o].state, s'.jobs[o].resume) {
      LogOfGrows(s.events, e, o);
      if o == id {
        HistoryGrows(LogOf(s.events, id), e, s.jobs[id].state, s.jobs[id].resume, j'.state, j'.resume);
      } else {
        assert LogOf(s'.events, o) == LogOf(s.events, o);
      }
    }
  }

  /** A scan row or the clock changes, or a line without a state is appended. */
  lemma LineKeepsInv(s: Store, id: JobId, kind: EventKind)
    requires Inv(s) && id in s.jobs
    ensures Inv(Logged(s, id, kind, None, None))
  {
    hide Lanes, JobOK, History;
    assert WithJob(s, id, s.jobs[id]) == s;
    LoggedChangeKeepsInv(s, id, s.jobs[id], kind, None, None);
  }

  lemma TransitionKeepsInv(s: Store, id: JobId, target: JobState, message: Option<string>)
    requires Inv(s) && id in s.jobs && s.jobs[id].control == RUNNING && Transition(s, id, target, message).Ok?
    ensures Inv(Transition(s, id, target, message).value)
  {
    MoveKeepsRow(s.jobs[id], target, message, s.now);
    hide Lanes, History, LogOrdered, Moved, RowOK;
    LoggedChangeKeepsInv(s, id, Moved(s.jobs[id], target, message, s.now), StateChange, Some(s.jobs[id].state), Some(target));
  }

  lemma ControlKeepsInv(s: Store, id: JobId, target: Control, kind: EventKind)
    requires Inv(s) && id in s.jobs && JobOK(s.jobs[id].(control := target)) && SetControl(s, id, target, kind).Ok?
    ensures Inv(SetControl(s, id, target, kind).value)
  {
    hide Lanes, History, LogOrdered;
    LoggedChangeKeepsInv(s, id, s.jobs[id].(control := target, controlRevision := s.jobs[id].controlRevision + 1), kind, None, None);
  }

  // ---- lanes --------------------------------------------------------------------------------

  /** Changing one row keeps the lanes exclusive iff the row enters no occupied lane. */
  lemma LanesAfterChange(jobs: map<JobId, Job>, id: JobId, j': Job, lane: set<JobState>)
    requires LaneFree(jobs, lane)
    ensures LaneFree(jobs[id := j'], lane) <==>
            !(Occupies(j', lane) && exists o :: o in jobs && o != id && Occupies(jobs[o], lane))
  {
    var after := jobs[id := j'];
    if Occupies(j', lane) {
      if o :| o in jobs && o != id && Occupies(jobs[o], lane) {
        assert o in after && id in after && after[o] == jobs[o];
      }
    }
  }

  ghost predicate Taken(jobs: map<JobId, Job>, id: JobId, lane: set<JobState>) {
    exists o :: o in jobs && o != id && Occupies(jobs[o], lane)
  }

  /** When the unique indexes refuse a row: its new state is in a lane that another row holds. */
  lemma IndexRefusesIff(jobs: map<JobId, Job>, id: JobId, j': Job)
    requires Lanes(jobs)
    ensures Lanes(jobs[id := j']) <==>
            !(Occupies(j', PREPARATION_ACTIVE_STATES) && Taken(jobs, id, PREPARATION_ACTIVE_STATES))
            && !(Occupies(j', BLOCKING_STATES) && Taken(jobs, id, BLOCKING_STATES))
  {
    LanesAfterChange(jobs, id, j', PREPARATION_ACTIVE_STATES);
    LanesAfterChange(jobs, id, j', BLOCKING_STATES);
    hide LaneFree;
  }

  /** Leaving the lanes, or staying in one's own, is never refused. */
  lemma LeavingIsFree(jobs: map<JobId, Job>, id: JobId, j': Job)
    requires Lanes(jobs) && id in jobs
    requires Occupies(j', PREPARATION_ACTIVE_STATES) ==> Occupies(jobs[id], PREPARATION_ACTIVE_STATES)
    requires Occupies(j', BLOCKING_STATES) ==> Occupies(jobs[id], BLOCKING_STATES)
    ensures Lanes(jobs[id := j'])
  {
    IndexRefusesIff(jobs, id, j');
    OwnLane(jobs, id, PREPARATION_ACTIVE_STATES);
    OwnLane(jobs, id, BLOCKING_STATES);
    hide LaneFree, Occupies;
  }

  lemma OwnLane(jobs: map<JobId, Job>, id: JobId, lane: set<JobState>)
    requires LaneFree(jobs, lane) && id in jobs
    ensures Occupies(jobs[id], lane) ==> !Taken(jobs, id, lane)
  {
  }

  // ---- each transaction ---------------------------------------------------------------------

  lemma CreateKeepsInv(s: Store, id: JobId, priority: int)
    requires Inv(s) && CreateJob(s, id, priority).Ok?
    ensures Inv(CreateJob(s, id, priority).value)
  {
    hide JobOK, Lanes, Histories;
    CreatedHistories(s, id, priority);
    CreatedRow(s, id, priority);
  }

  lemma CreatedRow(s: Store, id: JobId, priority: int)
    requires Lanes(s.jobs) && CreateJob(s, id, priority).Ok?
    ensures JobOK(CreateJob(s, id, priority).value.jobs[id]) && Lanes(CreateJob(s, id, priority).value.jobs)
  {
    hide LaneFree;
    var s' := CreateJob(s, id, priority).value;
    IndexRefusesIff(s.jobs, id, s'.jobs[id]);
  }

  lemma CreatedHistories(s: Store, id: JobId, priority: int)
    requires LogOrdered(s) && Histories(s) && CreateJob(s, id, priority).Ok?
    ensures Histories(CreateJob(s, id, priority).value)
  {
    hide History, LineOK, Lanes, JobOK, InOrder;
    var s' := CreateJob(s, id, priority).value;
    var e := Last(s'.events);
    NewJobHasNoLog(s.events, id);
    forall o | o in s'.jobs ensures History(LogOf(s'.events, o), s'.jobs[o].state, s'.jobs[o].resume) {
      LogOfGrows(s.events, e, o);
      if o == id {
        assert LogOf(s'.events, id) == [e];
        FirstLine(e);
      } else {
        assert LogOf(s'.events, o) == LogOf(s.events, o);
      }
    }
  }

  lemma {:induction false} NewJobHasNoLog(events: seq<Event>, id: JobId)
    requires forall i | 0 <= i < |events| :: events[i].job != id
    ensures LogOf(events, id) == []
  {
    if events != [] {
      NewJobHasNoLog(events[..|events| - 1], id);
    }
  }

  lemma FirstLine(e: Event)
    requires e.kind == JobCreated && e.from == None && e.to == Some(QUEUED)
    ensures History([e], QUEUED, None)
  {
    assert LastMove([e], 0, EveryLink) == None;
    assert LineOK([e], 0);
  }

  /** A row that enters a lane nobody occupies is not refused by the index. */
  lemma ClaimedMoveIsFree(s: Store, lane: set<JobState>, id: JobId, target: JobState)
    requires Lanes(s.jobs) && id in s.jobs && s.jobs[id].control == RUNNING && !Busy(s.jobs, lane)
    requires (lane == PREPARATION_ACTIVE_STATES && s.jobs[id].state == QUEUED && target == SCANNING)
             || (lane == BLOCKING_STATES && s.jobs[id].state == READY && target == ENCODING)
    ensures Transition(s, id, target, Some("claimed")) == Ok(AfterMove(s, id, target, Some("claimed")))
  {
    hide LaneFree;
    var j' := Moved(s.jobs[id], target, Some("claimed"), s.now);
    IndexRefusesIff(s.jobs, id, j');
    assert AfterMove(s, id, target, Some("claimed")).jobs == s.jobs[id := j'];
  }

  /** A claimed row enters a lane that the claim itself found free: the index never refuses it. */
  lemma ClaimIsNeverRefused(s: Store, lane: set<JobState>, from: JobState, target: JobState, pick: Option<JobId>)
    requires Inv(s) && Picked(s, from, pick)
    requires (lane == PREPARATION_ACTIVE_STATES && from == QUEUED && target == SCANNING)
             || (lane == BLOCKING_STATES && from == READY && target == ENCODING)
    ensures Claim(s, lane, from, target, pick).Ok? && Inv(Claim(s, lane, from, target, pick).value)
    ensures !Busy(s.jobs, lane) && pick.Some? ==>
              Claim(s, lane, from, target, pick).value == AfterMove(s, pick.value, target, Some("claimed"))
  {
    if !Busy(s.jobs, lane) && pick.Some? {
      assert Lanes(s.jobs);
      hide Lanes, Inv, Busy, Transition, AfterMove;
      ClaimedMoveIsFree(s, lane, pick.value, target);
      TransitionKeepsInv(s, pick.value, target, Some("claimed"));
    }
  }

  /** The row of a job after its cancellation. */
  function CancelledRow(j: Job, now: int): Job {
    Moved(j, CANCELLED, None, now).(control := RUNNING, controlRevision := j.controlRevision + 1)
  }

  /** Cancellation is never refused: a cancelled row leaves every lane. */
  lemma CancelIsFree(s: Store, id: JobId)
    requires Lanes(s.jobs) && id in s.jobs && s.jobs[id].state !in TERMINAL_STATES
    ensures Cancel(s, id) == Ok(AfterControl(AfterMove(s, id, CANCELLED, None), id, RUNNING, EventKind.Cancelled))
    ensures Cancel(s, id).value.jobs == s.jobs[id := CancelledRow(s.jobs[id], s.now)] && Lanes(Cancel(s, id).value.jobs)
  {
    hide Lanes;
    var moved := Moved(s.jobs[id], CANCELLED, None, s.now);
    LeavingIsFree(s.jobs, id, moved);
    LeavingIsFree(s.jobs, id, CancelledRow(s.jobs[id], s.now));
    assert AfterMove(s, id, CANCELLED, None).jobs == s.jobs[id := moved];
    assert AfterControl(AfterMove(s, id, CANCELLED, None), id, RUNNING, EventKind.Cancelled).jobs
        == s.jobs[id := CancelledRow(s.jobs[id], s.now)];
  }

  lemma CancelKeepsInv(s: Store, id: JobId)
    requires Inv(s) && id in s.jobs && s.jobs[id].state !in TERMINAL_STATES
    ensures Cancel(s, id).Ok? && Inv(Cancel(s, id).value)
    ensures Cancel(s, id).value.jobs == s.jobs[id := CancelledRow(s.jobs[id], s.now)]
  {
    hide Lanes, LogOrdered, Histories, JobOK, Cancel, CancelledRow, Moved;
    CancelIsFree(s, id);
    CancelledLog(s, id);
    CancelledRowIsOK(s.jobs[id], s.now);
    assert AfterMove(s, id, CANCELLED, None).scans == s.scans;
    assert Cancel(s, id).value.scans == s.scans;
  }

  lemma CancelledRowIsOK(j: Job, now: int)
    requires JobOK(j) && j.state !in TERMINAL_STATES
    ensures JobOK(CancelledRow(j, now))
  {
    MoveKeepsRow(j, CANCELLED, None, now);
  }

  /** The two lines of a cancellation extend every history. */
  lemma CancelledLog(s: Store, id: JobId)
    requires LogOrdered(s) && Histories(s) && id in s.jobs && s.jobs[id].state !in TERMINAL_STATES
    ensures var end := AfterControl(AfterMove(s, id, CANCELLED, None), id, RUNNING, EventKind.Cancelled);
            LogOrdered(end) && Histories(end)
  {
    hide LogOrdered, Histories, AllowedTransitions;
    var j := s.jobs[id];
    LoggedChangeKeepsLog(s, id, Moved(j, CANCELLED, None, s.now), StateChange, Some(j.state), Some(CANCELLED));
    var moved := AfterMove(s, id, CANCELLED, None);
    var row := moved.jobs[id];
    LoggedChangeKeepsLog(moved, id, row.(control := RUNNING, controlRevision := row.controlRevision + 1), EventKind.Cancelled, None, None);
  }

  lemma PauseKeepsInv(s: Store, id: JobId, revision: Option<int>)
    requires Inv(s) && RequestPause(s, id, revision).Ok?
    ensures Inv(RequestPause(s, id, revision).value)
  {
    var j := s.jobs[id];
    hide Lanes, History, LogOrdered, Histories;
    if j.control == RUNNING {
      ControlKeepsInv(s, id, if j.state in CONTROL_ACTIVE_STATES then PAUSE_REQUESTED else PAUSED, PauseRequested);
    }
  }

  lemma RequestCancelKeepsInv(s: Store, id: JobId, revision: Option<int>)
    requires Inv(s) && RequestCancel(s, id, revision).Ok?
    ensures Inv(RequestCancel(s, id, revision).value)
  {
    var j := s.jobs[id];
    hide Lanes, History, LogOrdered, Histories, Cancel;
    if j.state !in TERMINAL_STATES && j.control != CANCEL_REQUESTED {
      if j.state in CONTROL_ACTIVE_STATES && j.control != PAUSED {
        ControlKeepsInv(s, id, CANCEL_REQUESTED, CancelRequested);
      } else {
        CancelKeepsInv(s, id);
      }
    }
  }

  lemma AcknowledgementsKeepInv(s: Store, id: JobId, revision: Option<int>)
    requires Inv(s)
    ensures AcknowledgePause(s, id, revision).Ok? ==> Inv(AcknowledgePause(s, id, revision).value)
    ensures AcknowledgeCancel(s, id, revision).Ok? ==> Inv(AcknowledgeCancel(s, id, revision).value)
    ensures ResumePaused(s, id, revision).Ok? ==> Inv(ResumePaused(s, id, revision).value)
  {
    hide Lanes, History, LogOrdered, Histories, Cancel, SetControl;
    if id in s.jobs {
      var j := s.jobs[id];
      if j.control == PAUSE_REQUESTED && AcknowledgePause(s, id, revision).Ok? {
        ControlKeepsInv(s, id, PAUSED, EventKind.Paused);
      }
      if j.control == CANCEL_REQUESTED {
        CancelKeepsInv(s, id);
      }
      if j.control == PAUSED && ResumePaused(s, id, revision).Ok? {
        ControlKeepsInv(s, id, RUNNING, Resumed);
      }
    }
  }

  lemma TransitionJobKeepsInv(s: Store, id: JobId, target: JobState, message: Option<string>, version: Option<int>)
    requires Inv(s) && TransitionJob(s, id, target, message, version).Ok?
    ensures Inv(TransitionJob(s, id, target, message, version).value)
  {
    hide Inv, RequestCancel;
    if target == CANCELLED {
      RequestCancelKeepsInv(s, id, None);
    } else {
      TransitionKeepsInv(s, id, target, message);
    }
  }

  /** For a job with a history, the latest line that carries a state is the last link of its chain. */
  lemma {:induction false} LatestLinkIsLastMove(events: seq<Event>, id: JobId)
    requires forall n | 0 <= n < |LogOf(events, id)| :: LineOK(LogOf(events, id), n)
    ensures var log := LogOf(events, id);
            LatestLink(events, id) == if LastMove(log, |log|, EveryLink).Some? then Some(log[LastMove(log, |log|, EveryLink).value]) else None
  {
    if events != [] {
      var init, e := events[..|events| - 1], Last(events);
      var log, before := LogOf(events, id), LogOf(init, id);
      assert events == init + [e];
      if e.job == id {
        assert log == before + [e];
        forall n | 0 <= n < |before| ensures LineOK(before, n) {
          EarlierMove(before, e, n);
          assert LineOK(log, n) && log[n] == before[n];
        }
        LatestLinkIsLastMove(init, id);
        EarlierMove(before, e, |before|);
        assert LineOK(log, |before|);
      } else {
        assert log == before + [] == before;
        LatestLinkIsLastMove(init, id);
      }
    }
  }

  /** A failed job's latest link is the failure of its resume state. */
  lemma FailureIsProvenance(s: Store, id: JobId)
    requires Inv(s) && id in s.jobs && s.jobs[id].state == FAILED
    ensures s.jobs[id].resume.Some?
    ensures var link := LatestLink(s.events, id);
            link.Some? && link.value.kind == StateChange && link.value.to == Some(FAILED) && link.value.from == s.jobs[id].resume
  {
    hide Lanes, LogOrdered, LatestLink;
    assert JobOK(s.jobs[id]);
    var log := LogOf(s.events, id);
    assert History(log, s.jobs[id].state, s.jobs[id].resume);
    LatestLinkIsLastMove(s.events, id);
  }

  ghost predicate OtherBlocking(s: Store, id: JobId) {
    exists o :: o in s.jobs && o != id && s.jobs[o].state in BLOCKING_STATES
  }

  /** Entering the encode lane when no other job is in a blocking state, paused or not. */
  lemma RetriedRowIsFree(s: Store, id: JobId, stage: JobState)
    requires Lanes(s.jobs) && id in s.jobs && stage in RETRYABLE_FAILED_STAGES
    requires stage == READY || !OtherBlocking(s, id)
    ensures Lanes(s.jobs[id := Revived(s.jobs[id], stage)])
  {
    hide LaneFree;
    IndexRefusesIff(s.jobs, id, Revived(s.jobs[id], stage));
  }

  lemma RevivedIsOK(j: Job, stage: JobState)
    requires JobOK(j) && j.control == RUNNING && stage !in TERMINAL_STATES && stage != NEEDS_REVIEW
    ensures JobOK(Revived(j, stage)) && JobOK(Revived(j, stage).(startedAt := None))
  {
  }

  lemma LanesFree(s: Store)
    requires Inv(s)
    ensures Lanes(s.jobs)
  {
  }

  /** The only reasons to refuse a retry. Provenance is never one of them, nor is the index: the
      check for other blocking jobs, paused ones included, is stronger. */
  lemma RetrySucceedsIff(s: Store, id: JobId, version: Option<int>)
    requires Inv(s) && id in s.jobs
    ensures RetryFailed(s, id, version).Ok? <==>
            && s.jobs[id].state == FAILED && Matches(version, s.jobs[id].version)
            && s.jobs[id].resume.Some? && s.jobs[id].resume.value in RETRYABLE_FAILED_STAGES
            && (s.jobs[id].resume == Some(READY) || !OtherBlocking(s, id))
    ensures RetryFailed(s, id, version).Ok? ==>
              && s.jobs[id].resume.Some?
              && RetryFailed(s, id, version).value.jobs == s.jobs[id := Revived(s.jobs[id], s.jobs[id].resume.value)]
    ensures RetryFailed(s, id, version) != Err(NoProvenance) && RetryFailed(s, id, version) != Err(ProvenanceMismatch)
  {
    hide Lanes, Inv, LatestLink;
    var j := s.jobs[id];
    if j.state == FAILED && Matches(version, j.version) {
      FailureIsProvenance(s, id);
      LanesFree(s);
      var stage := j.resume.value;
      if stage in RETRYABLE_FAILED_STAGES && (stage == READY || !OtherBlocking(s, id)) {
        RetriedRowIsFree(s, id, stage);
      }
    }
  }

  lemma RetryKeepsInv(s: Store, id: JobId, version: Option<int>)
    requires Inv(s) && RetryFailed(s, id, version).Ok?
    ensures Inv(RetryFailed(s, id, version).value)
  {
    RetrySucceedsIff(s, id, version);
    FailureIsProvenance(s, id);
    hide Lanes, LogOrdered, Histories, LatestLink, RowOK;
    var j, stage := s.jobs[id], s.jobs[id].resume.value;
    RevivedIsOK(j, stage);
    RetriedRowIsFree(s, id, stage);
    LoggedChangeKeepsInv(s, id, Revived(j, stage), Retry, Some(FAILED), Some(stage));
  }

  lemma RestartKeepsInv(s: Store, id: JobId, version: Option<int>)
    requires Inv(s) && RestartCancelled(s, id, version).Ok?
    ensures Inv(RestartCancelled(s, id, version).value)
  {
    hide Lanes, LogOrdered, Histories, Scanned, RowOK;
    var j := s.jobs[id];
    var target := RestartTarget(s, id);
    var j' := Revived(j, target).(startedAt := if target == QUEUED then None else j.startedAt);
    RevivedIsOK(j, target);
    LeavingIsFree(s.jobs, id, j');
    LoggedChangeKeepsInv(s, id, j', Restart, Some(CANCELLED), Some(target));
  }

  lemma {:induction false} OthersKeepTheirLog(events: seq<Event>, id: JobId, o: JobId)
    requires o != id
    ensures LogOf(Without(events, id), o) == LogOf(events, o)
  {
    if events != [] {
      var init, e := events[..|events| - 1], Last(events);
      OthersKeepTheirLog(init, id, o);
      if e.job != id {
        LogOfGrows(Without(init, id), e, o);
      } else {
        assert Without(events, id) == Without(init, id) + [] == Without(init, id);
      }
    }
  }

  lemma {:induction false} WithoutIsAPart(events: seq<Event>, id: JobId)
    ensures forall e :: e in Without(events, id) <==> e in events && e.job != id
  {
    if events != [] {
      WithoutIsAPart(events[..|events| - 1], id);
      assert events == events[..|events| - 1] + [Last(events)];
    }
  }

  lemma {:induction false} WithoutKeepsOrder(events: seq<Event>, id: JobId)
    requires InOrder(events)
    ensures InOrder(Without(events, id))
  {
    if events != [] {
      var init, e := events[..|events| - 1], Last(events);
      WithoutKeepsOrder(init, id);
      WithoutIsAPart(init, id);
      var rest := Without(init, id);
      forall i | 0 <= i < |rest| ensures rest[i].id < e.id && rest[i].at <= e.at {
        assert rest[i] in init;
        var k :| 0 <= k < |init| && init[k] == rest[i];
        assert events[k].id < events[|init|].id;
      }
    }
  }

  lemma DeleteKeepsInv(s: Store, id: JobId, version: Option<int>, allowCompleted: bool)
    requires Inv(s) && DeleteTerminal(s, id, version, allowCompleted).Ok?
    ensures Inv(DeleteTerminal(s, id, version, allowCompleted).value)
  {
    hide History, JobOK;
    var s' := DeleteTerminal(s, id, version, allowCompleted).value;
    WithoutKeepsOrder(s.events, id);
    WithoutIsAPart(s.events, id);
    assert LogOrdered(s') by {
      assert InOrder(s'.events);
      assert forall i | 0 <= i < |s'.events| :: s'.events[i] in s.events;
    }
    forall o | o in s'.jobs ensures History(LogOf(s'.events, o), s'.jobs[o].state, s'.jobs[o].resume) {
      OthersKeepTheirLog(s.events, id, o);
    }
  }

  lemma ScanChangeKeepsInv(s: Store, k: ScanId, scan: Scan)
    requires Inv(s) && scan.job in s.jobs
    ensures Inv(s.(scans := s.scans[k := scan]))
  {
    hide Lanes, JobOK, History;
  }

  lemma SelectedKeepsInv(s: Store, id: JobId)
    requires Inv(s) && id in s.jobs
    ensures Inv(Logged(WithJob(s, id, s.jobs[id].(selected := true)), id, Selection, None, None))
  {
    assert JobOK(s.jobs[id]);
    LeavingIsFree(s.jobs, id, s.jobs[id].(selected := true));
    hide Lanes, History, LogOrdered, Histories;
    LoggedChangeKeepsInv(s, id, s.jobs[id].(selected := true), Selection, None, None);
  }

  /** The scan whose selection is accepted is closed. */
  function Accepted(s: Store, id: JobId, scan: Option<ScanId>): Store {
    if scan.Some? && scan.value in s.scans then Logged(WithScan(s, scan.value, ScanCompleted), id, ScanChange, None, None) else s
  }

  lemma AcceptedKeepsInv(s: Store, id: JobId, scan: Option<ScanId>)
    requires Inv(s) && id in s.jobs
    ensures Inv(Accepted(s, id, scan))
  {
    if scan.Some? && scan.value in s.scans {
      assert s.scans[scan.value].job in s.jobs;
      hide Inv;
      ScanChangeKeepsInv(s, scan.value, s.scans[scan.value].(status := ScanCompleted));
      LineKeepsInv(WithScan(s, scan.value, ScanCompleted), id, ScanChange);
    }
  }

  lemma SelectionKeepsInv(s: Store, id: JobId, version: Option<int>, scan: Option<ScanId>)
    requires Inv(s) && SetSelection(s, id, version, scan).Ok?
    ensures Inv(SetSelection(s, id, version, scan).value)
  {
    hide Inv, Lanes;
    SelectedKeepsInv(s, id);
    var selected := Logged(WithJob(s, id, s.jobs[id].(selected := true)), id, Selection, None, None);
    AcceptedKeepsInv(selected, id, scan);
    assert SetSelection(s, id, version, scan) == Transition(Accepted(selected, id, scan), id, READY, Some("selected"));
    TransitionKeepsInv(Accepted(selected, id, scan), id, READY, Some("selected"));
  }

  lemma ProgressedRow(s: Store, id: JobId, progress: real)
    requires Inv(s) && id in s.jobs && 0.0 <= progress <= 1.0
    ensures var j' := s.jobs[id].(progress := AtLeast(s.jobs[id].progress, progress), version := s.jobs[id].version + 1);
            JobOK(j') && Lanes(s.jobs[id := j'])
  {
    hide Lanes, History, LogOrdered, Histories;
    LeavingIsFree(s.jobs, id, s.jobs[id].(progress := AtLeast(s.jobs[id].progress, progress), version := s.jobs[id].version + 1));
  }

  lemma ProgressKeepsInv(s: Store, id: JobId, progress: real, expected: Option<JobState>, emit: bool)
    requires Inv(s) && RecordProgress(s, id, progress, expected, emit).Ok?
    ensures Inv(RecordProgress(s, id, progress, expected, emit).value)
  {
    hide Lanes, JobOK, Histories, LogOrdered;
    ProgressedRow(s, id, progress);
    var j' := s.jobs[id].(progress := AtLeast(s.jobs[id].progress, progress), version := s.jobs[id].version + 1);
    if emit {
      LoggedChangeKeepsInv(s, id, j', Progress, None, None);
    } else {
      QuietChangeKeepsLogs(s, id, j');
    }
  }

  lemma QuietChangeKeepsLogs(s: Store, id: JobId, j': Job)
    requires LogOrdered(s) && Histories(s) && id in s.jobs
    requires j'.state == s.jobs[id].state && j'.resume == s.jobs[id].resume
    ensures LogOrdered(WithJob(s, id, j')) && Histories(WithJob(s, id, j'))
  {
    hide History;
  }

  lemma ScansKeepInv(s: Store, op: Op)
    requires Inv(s) && (op.OpCreateScan? || op.OpUpdateScan?) && Apply(s, op).Ok?
    ensures Inv(Apply(s, op).value)
  {
    hide Lanes, History, LogOrdered, Histories, Transition, JobOK;
    match op
    case OpCreateScan(k, id, status) =>
      ScanChangeKeepsInv(s, k, Scan(id, status, s.now));
      LineKeepsInv(s.(scans := s.scans[k := Scan(id, status, s.now)]), id, ScanCreated);
    case OpUpdateScan(k, status, message) =>
      var id := s.scans[k].job;
      ScanChangeKeepsInv(s, k, s.scans[k].(status := status));
      LineKeepsInv(WithScan(s, k, status), id, ScanChange);
      var updated := Logged(WithScan(s, k, status), id, ScanChange, None, None);
      if s.jobs[id].state == SCANNING && ScanTarget(status).Some? {
        ScanResultKeepsInv(updated, id, ScanTarget(status).value, message);
      }
  }

  lemma ScanResultKeepsInv(s: Store, id: JobId, target: JobState, message: Option<string>)
    requires Inv(s) && id in s.jobs && target != CANCELLED && Transition(s, id, target, message).Ok?
    ensures Inv(Transition(s, id, target, message).value)
  {
    hide Inv, Lanes;
    TransitionKeepsInv(s, id, target, message);
  }

  lemma TickKeepsInv(s: Store, seconds: nat)
    requires Inv(s)
    ensures Inv(s.(now := s.now + seconds))
  {
    hide Lanes, JobOK, History;
  }

  /** Every transaction keeps the invariant; a refused one changes nothing. */
  lemma StepKeepsInv(s: Store, op: Op)
    requires Inv(s) && Possible(s, op)
    ensures Inv(Next(s, op))
  {
    hide Inv, CreateJob, Claim, TransitionJob, RequestPause, RequestCancel, AcknowledgePause, AcknowledgeCancel, ResumePaused,
      RetryFailed, RestartCancelled, DeleteTerminal, SetSelection, RecordProgress, CreateScan, UpdateScan, AddEvent, AwaitingScan, Picked;
    if Apply(s, op).Ok? {
      match op
      case OpCreate(id, priority) => CreateKeepsInv(s, id, priority);
      case OpClaim(pick) => ClaimIsNeverRefused(s, PREPARATION_ACTIVE_STATES, QUEUED, SCANNING, pick);
      case OpClaimReady(pick) => ClaimIsNeverRefused(s, BLOCKING_STATES, READY, ENCODING, pick);
      case OpTransition(id, target, message, version) => TransitionJobKeepsInv(s, id, target, message, version);
      case OpRequestPause(id, revision) => PauseKeepsInv(s, id, revision);
      case OpRequestCancel(id, revision) => RequestCancelKeepsInv(s, id, revision);
      case OpAcknowledgePause(id, revision) => AcknowledgementsKeepInv(s, id, revision);
      case OpAcknowledgeCancel(id, revision) => AcknowledgementsKeepInv(s, id, revision);
      case OpResumePaused(id, revision) => AcknowledgementsKeepInv(s, id, revision);
      case OpRetryFailed(id, version) => RetryKeepsInv(s, id, version);
      case OpRestartCancelled(id, version) => RestartKeepsInv(s, id, version);
      case OpDelete(id, version, allowCompleted) => DeleteKeepsInv(s, id, version, allowCompleted);
      case OpSetSelection(id, version, scan) => SelectionKeepsInv(s, id, version, scan);
      case OpRecordProgress(id, progress, expected, emit) => ProgressKeepsInv(s, id, progress, expected, emit);
      case OpCreateScan(_, _, _) => ScansKeepInv(s, op);
      case OpUpdateScan(_, _, _) => ScansKeepInv(s, op);
      case OpAddEvent(id, kind) => AddedLineKeepsInv(s, id, kind);
      case OpTick(seconds) => TickKeepsInv(s, seconds);
    }
  }

  lemma AddedLineKeepsInv(s: Store, id: JobId, kind: EventKind)
    requires Inv(s) && AddEvent(s, id, kind).Ok?
    ensures Inv(AddEvent(s, id, kind).value)
  {
    LineKeepsInv(s, id, kind);
  }

  /** The invariant holds in every state of every run. */
  lemma {:induction false} RunKeepsInv(states: seq<Store>, ops: seq<Op>, k: nat)
    requires Run(states, ops) && k < |states|
    ensures Inv(states[k])
  {
    hide Inv, Next, Possible;
    if k == 0 {
      EmptyIsSafe(states[0].now);
    } else {
      RunKeepsInv(states, ops, k - 1);
      StepKeepsInv(states[k - 1], ops[k - 1]);
    }
  }

  lemma EmptyIsSafe(now: int)
    ensures Inv(EmptyStore(now))
  {
  }
}
