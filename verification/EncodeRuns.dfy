/** Runs of the job database that end with the two logs on which the encode time falls short. */
module EncodeRuns {

  import opened Wrappers
  import opened JobStates
  import opened JobModel
  import opened JobSafety
  import opened JobProtocol
  import opened EncodeSeconds

  /** The store of one job: where the job stands, its log so far, and the clock. */
  ghost predicate Only(s: Store, state: JobState, control: Control, resume: Option<JobState>, log: seq<Event>, now: int) {
    && s.jobs.Keys == {1} && s.jobs[1].state == state && s.jobs[1].control == control && s.jobs[1].resume == resume
    && s.scans == map[] && s.events == log && s.nextEvent == |log| + 1 && s.now == now
  }

  predicate Says(log: seq<Event>, k: nat, kind: EventKind, from: Option<JobState>, to: Option<JobState>, now: int) {
    k < |log| && log[k] == Event(k + 1, 1, kind, from, to, now) && log[..k] + [log[k]] == log[..k + 1]
  }

  /** Where a moved job resumes. */
  function ResumeAfter(state: JobState, target: JobState, resume: Option<JobState>): Option<JobState> {
    if target == FAILED || target == NEEDS_REVIEW then Some(state)
    else if target in TERMINAL_STATES || state == NEEDS_REVIEW then None
    else resume
  }

  lemma LanesOfOne(jobs: map<JobId, Job>)
    requires jobs.Keys == {1}
    ensures Lanes(jobs)
  {
    assert forall o | o in jobs :: o == 1;
  }

  lemma KeysOfOne(jobs: map<JobId, Job>, j: Job)
    requires jobs.Keys == {1}
    ensures jobs[1 := j].Keys == {1} && Lanes(jobs[1 := j])
  {
    LanesOfOne(jobs[1 := j]);
  }

  // ---- one transaction each -------------------------------------------------------------------

  lemma Created(s: Store, log: seq<Event>)
    requires s == EmptyStore(0) && Says(log, 0, JobCreated, None, Some(QUEUED), 0)
    ensures Only(Next(s, OpCreate(1, 0)), QUEUED, RUNNING, None, log[..1], 0)
  {
  }

  lemma MovedTo(s: Store, log: seq<Event>, k: nat, state: JobState, target: JobState, resume: Option<JobState>, now: int)
    requires Says(log, k, StateChange, Some(state), Some(target), now) && Only(s, state, RUNNING, resume, log[..k], now)
    requires target in AllowedTransitions(state, resume) && target != CANCELLED
    ensures Only(Next(s, OpTransition(1, target, None, None)), target, RUNNING, ResumeAfter(state, target, resume), log[..k + 1], now)
  {
    hide Lanes, AllowedTransitions, Baseline, AtLeast;
    KeysOfOne(s.jobs, Moved(s.jobs[1], target, None, s.now));
  }

  lemma Ticked(s: Store, log: seq<Event>, state: JobState, control: Control, resume: Option<JobState>, now: int, seconds: nat)
    requires Only(s, state, control, resume, log, now)
    ensures Only(Next(s, OpTick(seconds)), state, control, resume, log, now + seconds)
  {
  }

  lemma Retried(s: Store, log: seq<Event>, k: nat, stage: JobState, now: int)
    requires Says(log, k, Retry, Some(FAILED), Some(stage), now)
    requires Inv(s) && Only(s, FAILED, RUNNING, Some(stage), log[..k], now) && stage in RETRYABLE_FAILED_STAGES
    ensures Only(Next(s, OpRetryFailed(1, None)), stage, RUNNING, None, log[..k + 1], now)
  {
    FailureIsProvenance(s, 1);
    hide Inv, LatestLink, Lanes, Baseline;
    KeysOfOne(s.jobs, Revived(s.jobs[1], stage));
    assert forall o | o in s.jobs :: o == 1;
  }

  lemma PauseAsked(s: Store, log: seq<Event>, k: nat, state: JobState, resume: Option<JobState>, now: int)
    requires Says(log, k, PauseRequested, None, None, now) && Only(s, state, RUNNING, resume, log[..k], now) && state !in TERMINAL_STATES
    ensures Only(Next(s, OpRequestPause(1, None)), state, if state in CONTROL_ACTIVE_STATES then PAUSE_REQUESTED else PAUSED, resume, log[..k + 1], now)
  {
    hide Lanes;
    var target := if state in CONTROL_ACTIVE_STATES then PAUSE_REQUESTED else PAUSED;
    KeysOfOne(s.jobs, s.jobs[1].(control := target, controlRevision := s.jobs[1].controlRevision + 1));
  }

  lemma PauseTaken(s: Store, log: seq<Event>, k: nat, state: JobState, resume: Option<JobState>, now: int)
    requires Says(log, k, EventKind.Paused, None, None, now) && Only(s, state, PAUSE_REQUESTED, resume, log[..k], now)
    ensures Only(Next(s, OpAcknowledgePause(1, None)), state, PAUSED, resume, log[..k + 1], now)
  {
    hide Lanes;
    KeysOfOne(s.jobs, s.jobs[1].(control := PAUSED, controlRevision := s.jobs[1].controlRevision + 1));
  }

  lemma ResumedAgain(s: Store, log: seq<Event>, k: nat, state: JobState, resume: Option<JobState>, now: int)
    requires Says(log, k, Resumed, None, None, now) && Only(s, state, PAUSED, resume, log[..k], now) && state !in TERMINAL_STATES
    ensures Only(Next(s, OpResumePaused(1, None)), state, RUNNING, resume, log[..k + 1], now)
  {
    hide Lanes;
    KeysOfOne(s.jobs, s.jobs[1].(control := RUNNING, controlRevision := s.jobs[1].controlRevision + 1));
  }

  /** A paused job is cancelled at once, with two lines. */
  lemma CancelledWhilePaused(s: Store, log: seq<Event>, k: nat, state: JobState, resume: Option<JobState>, now: int)
    requires Says(log, k, StateChange, Some(state), Some(CANCELLED), now) && Says(log, k + 1, EventKind.Cancelled, None, None, now)
    requires Only(s, state, PAUSED, resume, log[..k], now) && state !in TERMINAL_STATES
    ensures Only(Next(s, OpRequestCancel(1, None)), CANCELLED, RUNNING, None, log[..k + 2], now)
  {
    hide Lanes;
    LanesOfOne(s.jobs);
    CancelIsFree(s, 1);
  }

  lemma Restarted(s: Store, log: seq<Event>, k: nat, now: int)
    requires Says(log, k, Restart, Some(CANCELLED), Some(QUEUED), now) && Only(s, CANCELLED, RUNNING, None, log[..k], now)
    ensures Only(Next(s, OpRestartCancelled(1, None)), QUEUED, RUNNING, None, log[..k + 1], now)
  {
    hide Baseline;
  }

  // ---- the runs -------------------------------------------------------------------------------

  lemma IsPossible(s: Store, op: Op)
    requires !op.OpClaim? && !op.OpClaimReady? && !op.OpSetSelection?
    ensures Possible(s, op)
  {
  }

  lemma {:induction false} LogOfOne(events: seq<Event>)
    requires forall e | e in events :: e.job == 1
    ensures LogOf(events, 1) == events
  {
    if events != [] {
      LogOfOne(events[..|events| - 1]);
      assert events == events[..|events| - 1] + [Last(events)];
    }
  }

  /** From the empty store to an encoding job. */
  lemma Encoding(log: seq<Event>) returns (states: seq<Store>, ops: seq<Op>)
    requires Says(log, 0, JobCreated, None, Some(QUEUED), 0) && Says(log, 1, StateChange, Some(QUEUED), Some(SCANNING), 0)
    requires Says(log, 2, StateChange, Some(SCANNING), Some(READY), 0) && Says(log, 3, StateChange, Some(READY), Some(ENCODING), 0)
    ensures Run(states, ops) && states != [] && Inv(Last(states)) && Only(Last(states), ENCODING, RUNNING, None, log[..4], 0)
  {
    hide Inv, Next, Possible, Only, Says, Run;
    var s := EmptyStore(0);
    NothingYet();
    states, ops := [s], [];
    Created(s, log);
    states, ops, s := Extended(states, ops, OpCreate(1, 0));
    MovedTo(s, log, 1, QUEUED, SCANNING, None, 0);
    states, ops, s := Extended(states, ops, OpTransition(1, SCANNING, None, None));
    MovedTo(s, log, 2, SCANNING, READY, None, 0);
    states, ops, s := Extended(states, ops, OpTransition(1, READY, None, None));
    MovedTo(s, log, 3, READY, ENCODING, None, 0);
    states, ops, s := Extended(states, ops, OpTransition(1, ENCODING, None, None));
  }

  lemma NothingYet()
    ensures Run([EmptyStore(0)], []) && Inv(EmptyStore(0))
  {
    EmptyIsSafe(0);
    hide Inv;
  }

  lemma RetriedEncodeSays()
    ensures var log := RetriedEncode();
            && |log| == 7 && Says(log, 0, JobCreated, None, Some(QUEUED), 0) && Says(log, 1, StateChange, Some(QUEUED), Some(SCANNING), 0)
            && Says(log, 2, StateChange, Some(SCANNING), Some(READY), 0) && Says(log, 3, StateChange, Some(READY), Some(ENCODING), 0)
            && Says(log, 4, StateChange, Some(ENCODING), Some(FAILED), 1) && Says(log, 5, Retry, Some(FAILED), Some(ENCODING), 2)
            && Says(log, 6, StateChange, Some(ENCODING), Some(MUXING), 11)
  {
  }

  /** The log of a retried encode is that of a reachable job. */
  lemma RetriedEncodeIsReachable() returns (states: seq<Store>, ops: seq<Op>)
    ensures Run(states, ops) && 1 in Last(states).jobs && LogOf(Last(states).events, 1) == RetriedEncode()
  {
    hide Inv, Next, Possible, Only, Says, Run, RetriedEncode;
    var log := RetriedEncode();
    RetriedEncodeSays();
    states, ops := Encoding(log);
    var s := Last(states);
    Ticked(s, log[..4], ENCODING, RUNNING, None, 0, 1);
    IsPossible(s, OpTick(1));
    states, ops, s := Extended(states, ops, OpTick(1));
    MovedTo(s, log, 4, ENCODING, FAILED, None, 1);
    states, ops, s := Extended(states, ops, OpTransition(1, FAILED, None, None));
    Ticked(s, log[..5], FAILED, RUNNING, Some(ENCODING), 1, 1);
    IsPossible(s, OpTick(1));
    states, ops, s := Extended(states, ops, OpTick(1));
    Retried(s, log, 5, ENCODING, 2);
    IsPossible(s, OpRetryFailed(1, None));
    states, ops, s := Extended(states, ops, OpRetryFailed(1, None));
    Ticked(s, log[..6], ENCODING, RUNNING, None, 2, 9);
    IsPossible(s, OpTick(9));
    states, ops, s := Extended(states, ops, OpTick(9));
    MovedTo(s, log, 6, ENCODING, MUXING, None, 11);
    states, ops, s := Extended(states, ops, OpTransition(1, MUXING, None, None));
    EndsWith(s, MUXING, RUNNING, None, log, 11);
  }

  lemma EndsWith(s: Store, state: JobState, control: Control, resume: Option<JobState>, log: seq<Event>, now: int)
    requires Only(s, state, control, resume, log[..|log|], now) && Inv(s)
    ensures 1 in s.jobs && LogOf(s.events, 1) == log
  {
    assert log[..|log|] == log;
    assert LogOrdered(s);
    forall e | e in s.events ensures e.job == 1 {
      var i :| 0 <= i < |s.events| && s.events[i] == e;
      assert s.events[i].job in s.jobs;
    }
    hide Inv;
    LogOfOne(s.events);
  }

  lemma CancelledPauseSays()
    ensures var log := CancelledPause();
            && |log| == 15 && Says(log, 0, JobCreated, None, Some(QUEUED), 0) && Says(log, 1, StateChange, Some(QUEUED), Some(SCANNING), 0)
            && Says(log, 2, StateChange, Some(SCANNING), Some(READY), 0) && Says(log, 3, StateChange, Some(READY), Some(ENCODING), 0)
            && Says(log, 4, PauseRequested, None, None, 1) && Says(log, 5, EventKind.Paused, None, None, 1)
            && Says(log, 6, StateChange, Some(ENCODING), Some(CANCELLED), 2) && Says(log, 7, EventKind.Cancelled, None, None, 2)
            && Says(log, 8, Restart, Some(CANCELLED), Some(QUEUED), 3) && Says(log, 9, StateChange, Some(QUEUED), Some(SCANNING), 4)
            && Says(log, 10, StateChange, Some(SCANNING), Some(READY), 4) && Says(log, 11, StateChange, Some(READY), Some(ENCODING), 4)
            && Says(log, 12, StateChange, Some(ENCODING), Some(NEEDS_REVIEW), 14) && Says(log, 13, PauseRequested, None, None, 15)
            && Says(log, 14, Resumed, None, None, 20)
  {
  }

  /** So is the log of the cancelled pause that swallows a later encode. */
  lemma CancelledPauseIsReachable() returns (states: seq<Store>, ops: seq<Op>)
    ensures Run(states, ops) && 1 in Last(states).jobs && LogOf(Last(states).events, 1) == CancelledPause()
  {
    hide Inv, Next, Possible, Only, Says, Run, CancelledPause;
    var log := CancelledPause();
    CancelledPauseSays();
    states, ops := Encoding(log);
    states, ops := PausedAndCancelled(states, ops, log);
    states, ops := ReadyAgain(states, ops, log);
    states, ops := EncodedAgain(states, ops, log);
    var s := Last(states);
    PauseAsked(s, log, 13, NEEDS_REVIEW, Some(ENCODING), 15);
    IsPossible(s, OpRequestPause(1, None));
    states, ops, s := Extended(states, ops, OpRequestPause(1, None));
    Ticked(s, log[..14], NEEDS_REVIEW, PAUSED, Some(ENCODING), 15, 5);
    IsPossible(s, OpTick(5));
    states, ops, s := Extended(states, ops, OpTick(5));
    ResumedAgain(s, log, 14, NEEDS_REVIEW, Some(ENCODING), 20);
    IsPossible(s, OpResumePaused(1, None));
    states, ops, s := Extended(states, ops, OpResumePaused(1, None));
    EndsWith(s, NEEDS_REVIEW, RUNNING, Some(ENCODING), log, 20);
  }

  lemma PausedAndCancelled(states: seq<Store>, ops: seq<Op>, log: seq<Event>) returns (states': seq<Store>, ops': seq<Op>)
    requires Run(states, ops) && states != [] && Inv(Last(states)) && log == CancelledPause() && Only(Last(states), ENCODING, RUNNING, None, log[..4], 0)
    ensures Run(states', ops') && states' != [] && Inv(Last(states')) && Only(Last(states'), CANCELLED, RUNNING, None, log[..8], 3)
  {
    hide Inv, Next, Possible, Only, Says, Run, CancelledPause;
    CancelledPauseSays();
    var s := Last(states);
    Ticked(s, log[..4], ENCODING, RUNNING, None, 0, 1);
    IsPossible(s, OpTick(1));
    states', ops', s := Extended(states, ops, OpTick(1));
    PauseAsked(s, log, 4, ENCODING, None, 1);
    IsPossible(s, OpRequestPause(1, None));
    states', ops', s := Extended(states', ops', OpRequestPause(1, None));
    PauseTaken(s, log, 5, ENCODING, None, 1);
    IsPossible(s, OpAcknowledgePause(1, None));
    states', ops', s := Extended(states', ops', OpAcknowledgePause(1, None));
    Ticked(s, log[..6], ENCODING, PAUSED, None, 1, 1);
    IsPossible(s, OpTick(1));
    states', ops', s := Extended(states', ops', OpTick(1));
    CancelledWhilePaused(s, log, 6, ENCODING, None, 2);
    IsPossible(s, OpRequestCancel(1, None));
    states', ops', s := Extended(states', ops', OpRequestCancel(1, None));
    Ticked(s, log[..8], CANCELLED, RUNNING, None, 2, 1);
    IsPossible(s, OpTick(1));
    states', ops', s := Extended(states', ops', OpTick(1));
  }

  lemma ReadyAgain(states: seq<Store>, ops: seq<Op>, log: seq<Event>) returns (states': seq<Store>, ops': seq<Op>)
    requires Run(states, ops) && states != [] && Inv(Last(states)) && log == CancelledPause() && Only(Last(states), CANCELLED, RUNNING, None, log[..8], 3)
    ensures Run(states', ops') && states' != [] && Inv(Last(states')) && Only(Last(states'), READY, RUNNING, None, log[..11], 4)
  {
    hide Inv, Next, Possible, Only, Says, Run, CancelledPause;
    CancelledPauseSays();
    var s := Last(states);
    Restarted(s, log, 8, 3);
    IsPossible(s, OpRestartCancelled(1, None));
    states', ops', s := Extended(states, ops, OpRestartCancelled(1, None));
    Ticked(s, log[..9], QUEUED, RUNNING, None, 3, 1);
    IsPossible(s, OpTick(1));
    states', ops', s := Extended(states', ops', OpTick(1));
    MovedTo(s, log, 9, QUEUED, SCANNING, None, 4);
    states', ops', s := Extended(states', ops', OpTransition(1, SCANNING, None, None));
    MovedTo(s, log, 10, SCANNING, READY, None, 4);
    states', ops', s := Extended(states', ops', OpTransition(1, READY, None, None));
  }

  lemma EncodedAgain(states: seq<Store>, ops: seq<Op>, log: seq<Event>) returns (states': seq<Store>, ops': seq<Op>)
    requires Run(states, ops) && states != [] && Inv(Last(states)) && log == CancelledPause() && Only(Last(states), READY, RUNNING, None, log[..11], 4)
    ensures Run(states', ops') && states' != [] && Inv(Last(states')) && Only(Last(states'), NEEDS_REVIEW, RUNNING, Some(ENCODING), log[..13], 15)
  {
    hide Inv, Next, Possible, Only, Says, Run, CancelledPause;
    CancelledPauseSays();
    var s := Last(states);
    MovedTo(s, log, 11, READY, ENCODING, None, 4);
    states', ops', s := Extended(states, ops, OpTransition(1, ENCODING, None, None));
    Ticked(s, log[..12], ENCODING, RUNNING, None, 4, 10);
    IsPossible(s, OpTick(10));
    states', ops', s := Extended(states', ops', OpTick(10));
    MovedTo(s, log, 12, ENCODING, NEEDS_REVIEW, None, 14);
    states', ops', s := Extended(states', ops', OpTransition(1, NEEDS_REVIEW, None, None));
    Ticked(s, log[..13], NEEDS_REVIEW, RUNNING, Some(ENCODING), 14, 1);
    IsPossible(s, OpTick(1));
    states', ops', s := Extended(states', ops', OpTick(1));
  }
}
