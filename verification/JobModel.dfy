/** The job database as a function: what each write transaction does to the stored rows and to the
    append-only log, or why it is refused and changes nothing. */
module JobModel {

  import opened Wrappers
  import opened JobStates

  type JobId = nat

  type ScanId = nat

  datatype Job = Job(
    state: JobState,
    control: Control,
    controlRevision: int,
    version: int,
    priority: int,
    createdAt: int,
    startedAt: Option<int>,
    finishedAt: Option<int>,
    progress: Option<real>,
    selected: bool,
    resume: Option<JobState>,
    error: Option<string>)

  datatype ScanStatus = ScanPending | ScanRunning | ScanAwaitingSelection | ScanCompleted | ScanFailed

  datatype Scan = Scan(job: JobId, status: ScanStatus, createdAt: int)

  datatype Store = Store(jobs: map<JobId, Job>, scans: map<ScanId, Scan>, events: seq<Event>, nextEvent: nat, now: int)

  datatype Refusal =
    | NotFound | Conflict | Illegal | QueueBlocked | Invalid
    | NoProvenance | ProvenanceMismatch | NotRetryable

  type Written = Result<Store, Refusal>

  // ---- the two lanes ------------------------------------------------------------------------

  /** Who occupies a lane: the partial unique indexes see only rows that are not paused. */
  predicate Occupies(j: Job, lane: set<JobState>) { j.state in lane && j.control != PAUSED }

  predicate LaneFree(jobs: map<JobId, Job>, lane: set<JobState>) {
    forall a, b | a in jobs && b in jobs && Occupies(jobs[a], lane) && Occupies(jobs[b], lane) :: a == b
  }

  /** The two partial unique indexes. */
  predicate Lanes(jobs: map<JobId, Job>) {
    LaneFree(jobs, PREPARATION_ACTIVE_STATES) && LaneFree(jobs, BLOCKING_STATES)
  }

  predicate Busy(jobs: map<JobId, Job>, lane: set<JobState>) { exists o :: o in jobs && Occupies(jobs[o], lane) }

  // ---- the building blocks of a transaction -------------------------------------------------

  function Logged(s: Store, id: JobId, kind: EventKind, from: Option<JobState>, to: Option<JobState>): Store {
    s.(events := s.events + [Event(s.nextEvent, id, kind, from, to, s.now)], nextEvent := s.nextEvent + 1)
  }

  function WithJob(s: Store, id: JobId, j: Job): Store { s.(jobs := s.jobs[id := j]) }

  /** The share of the whole job done when a stage starts; failure, cancellation and review have none. */
  function Baseline(state: JobState): Option<real> {
    match state
    case QUEUED => Some(0.0)
    case SCANNING => Some(0.02)
    case AWAITING_SELECTION => Some(0.10)
    case READY => Some(0.12)
    case ENCODING => Some(0.15)
    case MUXING => Some(0.78)
    case QC => Some(0.85)
    case COMPARISON => Some(0.92)
    case UPLOADING => Some(0.98)
    case COMPLETED => Some(1.0)
    case _ => None
  }

  function AtLeast(progress: Option<real>, floor: real): Option<real> {
    if progress.Some? && progress.value > floor then progress else Some(floor)
  }

  /** The row after a legal move to `target`. */
  function Moved(j: Job, target: JobState, message: Option<string>, now: int): Job {
    var progress :=
      if j.state == NEEDS_REVIEW && target == READY then Baseline(target)
      else if Baseline(target).Some? then AtLeast(j.progress, Baseline(target).value)
      else j.progress;
    j.(state := target,
       version := j.version + 1,
       startedAt := if j.state == QUEUED && target == SCANNING then Some(now) else j.startedAt,
       finishedAt := if target in TERMINAL_STATES then Some(now) else j.finishedAt,
       progress := if target == COMPLETED then Some(1.0) else progress,
       error := if target == FAILED then (if message.Some? && message.value != "" then message else Some("job failed")) else j.error,
       resume := if target == FAILED || target == NEEDS_REVIEW then Some(j.state)
                 else if target in TERMINAL_STATES || j.state == NEEDS_REVIEW then None
                 else j.resume)
  }

  predicate CanMove(j: Job, target: JobState) {
    (j.control == RUNNING || target == CANCELLED) && target in AllowedTransitions(j.state, j.resume)
  }

  function AfterMove(s: Store, id: JobId, target: JobState, message: Option<string>): Store
    requires id in s.jobs
  {
    Logged(WithJob(s, id, Moved(s.jobs[id], target, message, s.now)), id, StateChange, Some(s.jobs[id].state), Some(target))
  }

  /** `_transition_in_connection`, with the index check of its UPDATE. */
  ghost function Transition(s: Store, id: JobId, target: JobState, message: Option<string>): Written
    requires id in s.jobs
  {
    var j := s.jobs[id];
    if j.control != RUNNING && target != CANCELLED then Err(Conflict)
    else if target !in AllowedTransitions(j.state, j.resume) then Err(Illegal)
    else if !Lanes(AfterMove(s, id, target, message).jobs) then Err(QueueBlocked)
    else Ok(AfterMove(s, id, target, message))
  }

  function AfterControl(s: Store, id: JobId, target: Control, kind: EventKind): Store
    requires id in s.jobs
  {
    Logged(WithJob(s, id, s.jobs[id].(control := target, controlRevision := s.jobs[id].controlRevision + 1)), id, kind, None, None)
  }

  /** `_set_control_in_connection`, with the index check of its UPDATE. */
  ghost function SetControl(s: Store, id: JobId, target: Control, kind: EventKind): Written
    requires id in s.jobs
  {
    if !Lanes(AfterControl(s, id, target, kind).jobs) then Err(QueueBlocked) else Ok(AfterControl(s, id, target, kind))
  }

  predicate Matches(expected: Option<int>, actual: int) { expected.Some? ==> expected.value == actual }

  // ---- the transactions ---------------------------------------------------------------------

  ghost function CreateJob(s: Store, id: JobId, priority: int): Written {
    if id in s.jobs then Err(Invalid)
    else
      var j := Job(QUEUED, RUNNING, 1, 1, priority, s.now, None, None, None, false, None, None);
      Ok(Logged(WithJob(s, id, j), id, JobCreated, None, Some(QUEUED)))
  }

  predicate Eligible(s: Store, id: JobId, state: JobState) {
    id in s.jobs && s.jobs[id].state == state && s.jobs[id].control == RUNNING
  }

  /** Highest priority first, then oldest; ties are the database's choice. */
  ghost predicate NextInLine(s: Store, state: JobState, id: JobId) {
    && Eligible(s, id, state)
    && forall o | Eligible(s, o, state) ::
         s.jobs[o].priority < s.jobs[id].priority
         || (s.jobs[o].priority == s.jobs[id].priority && s.jobs[o].createdAt >= s.jobs[id].createdAt)
  }

  /** A claim with the row the database picked, or no row when nothing is eligible. */
  ghost function Claim(s: Store, lane: set<JobState>, from: JobState, target: JobState, pick: Option<JobId>): Written {
    if Busy(s.jobs, lane) || pick.None? then Ok(s)
    else if pick.value in s.jobs then Transition(s, pick.value, target, Some("claimed"))
    else Err(NotFound)
  }

  ghost predicate Picked(s: Store, state: JobState, pick: Option<JobId>) {
    if pick.Some? then NextInLine(s, state, pick.value) else forall o :: !Eligible(s, o, state)
  }

  ghost function TransitionJob(s: Store, id: JobId, target: JobState, message: Option<string>, version: Option<int>): Written {
    if id !in s.jobs then Err(NotFound)
    else if !Matches(version, s.jobs[id].version) then Err(Conflict)
    else if target == CANCELLED then RequestCancel(s, id, None)
    else Transition(s, id, target, message)
  }

  ghost function RequestPause(s: Store, id: JobId, revision: Option<int>): Written {
    if id !in s.jobs then Err(NotFound)
    else
      var j := s.jobs[id];
      if !Matches(revision, j.controlRevision) || j.state in TERMINAL_STATES then Err(Conflict)
      else if j.control == PAUSE_REQUESTED || j.control == PAUSED then Ok(s)
      else if j.control == CANCEL_REQUESTED then Err(Conflict)
      else SetControl(s, id, if j.state in CONTROL_ACTIVE_STATES then PAUSE_REQUESTED else PAUSED, PauseRequested)
  }

  ghost function Cancel(s: Store, id: JobId): Written
    requires id in s.jobs
  {
    var moved := Transition(s, id, CANCELLED, None);
    if moved.Err? then moved else SetControl(moved.value, id, RUNNING, EventKind.Cancelled)
  }

  ghost function RequestCancel(s: Store, id: JobId, revision: Option<int>): Written {
    if id !in s.jobs then Err(NotFound)
    else
      var j := s.jobs[id];
      if !Matches(revision, j.controlRevision) then Err(Conflict)
      else if j.state == CANCELLED then Ok(s)
      else if j.state in {COMPLETED, FAILED} then Err(Conflict)
      else if j.control == CANCEL_REQUESTED then Ok(s)
      else if j.state in CONTROL_ACTIVE_STATES && j.control != PAUSED then SetControl(s, id, CANCEL_REQUESTED, CancelRequested)
      else Cancel(s, id)
  }

  ghost function AcknowledgePause(s: Store, id: JobId, revision: Option<int>): Written {
    if id !in s.jobs then Err(NotFound)
    else
      var j := s.jobs[id];
      if !Matches(revision, j.controlRevision) then Err(Conflict)
      else if j.control == PAUSED then Ok(s)
      else if j.control != PAUSE_REQUESTED then Err(Conflict)
      else SetControl(s, id, PAUSED, EventKind.Paused)
  }

  ghost function AcknowledgeCancel(s: Store, id: JobId, revision: Option<int>): Written {
    if id !in s.jobs then Err(NotFound)
    else
      var j := s.jobs[id];
      if !Matches(revision, j.controlRevision) then Err(Conflict)
      else if j.state == CANCELLED then Ok(s)
      else if j.control != CANCEL_REQUESTED then Err(Conflict)
      else Cancel(s, id)
  }

  ghost function ResumePaused(s: Store, id: JobId, revision: Option<int>): Written {
    if id !in s.jobs then Err(NotFound)
    else
      var j := s.jobs[id];
      if !Matches(revision, j.controlRevision) || j.control != PAUSED || j.state in TERMINAL_STATES then Err(Conflict)
      else SetControl(s, id, RUNNING, Resumed)
  }

  /** The latest line of a job's log that carries a state. */
  ghost function LatestLink(events: seq<Event>, id: JobId): (e: Option<Event>)
    ensures e.Some? ==> e.value in events && e.value.job == id
  {
    if events == [] then None
    else
      var e := Last(events);
      if e.job == id && (e.from.Some? || e.to.Some?) then Some(e) else LatestLink(events[..|events| - 1], id)
  }

  /** A row restored to a pipeline stage by retry or restart. */
  function Revived(j: Job, stage: JobState): Job {
    j.(state := stage, version := j.version + 1, error := None, resume := None, finishedAt := None, progress := Baseline(stage))
  }

  ghost function RetryFailed(s: Store, id: JobId, version: Option<int>): Written {
    if id !in s.jobs then Err(NotFound)
    else
      var j := s.jobs[id];
      if j.state != FAILED || !Matches(version, j.version) then Err(Conflict)
      else
        var link := LatestLink(s.events, id);
        if link.None? || link.value.kind != StateChange || link.value.to != Some(FAILED) || link.value.from.None? then Err(NoProvenance)
        else
          var stage := link.value.from.value;
          if j.resume.Some? && j.resume.value != stage then Err(ProvenanceMismatch)
          else if stage !in RETRYABLE_FAILED_STAGES then Err(NotRetryable)
          else if stage != READY && exists o :: o in s.jobs && o != id && s.jobs[o].state in BLOCKING_STATES then Err(QueueBlocked)
          else
            var s' := Logged(WithJob(s, id, Revived(j, stage)), id, Retry, Some(FAILED), Some(stage));
            if !Lanes(s'.jobs) then Err(QueueBlocked) else Ok(s')
  }

  predicate Scanned(s: Store, id: JobId) {
    exists k | k in s.scans :: s.scans[k].job == id && s.scans[k].status in {ScanAwaitingSelection, ScanCompleted}
  }

  function RestartTarget(s: Store, id: JobId): JobState
    requires id in s.jobs
  {
    if Scanned(s, id) && s.jobs[id].selected then READY else if Scanned(s, id) then AWAITING_SELECTION else QUEUED
  }

  ghost function RestartCancelled(s: Store, id: JobId, version: Option<int>): Written {
    if id !in s.jobs then Err(NotFound)
    else
      var j := s.jobs[id];
      if j.state != CANCELLED || !Matches(version, j.version) then Err(Conflict)
      else
        var target := RestartTarget(s, id);
        var j' := Revived(j, target).(startedAt := if target == QUEUED then None else j.startedAt);
        Ok(Logged(WithJob(s, id, j'), id, Restart, Some(CANCELLED), Some(target)))
  }

  /** The log without a deleted job's lines. */
  function Without(events: seq<Event>, id: JobId): seq<Event> {
    if events == [] then []
    else Without(events[..|events| - 1], id) + (if Last(events).job == id then [] else [Last(events)])
  }

  ghost function DeleteTerminal(s: Store, id: JobId, version: Option<int>, allowCompleted: bool): Written {
    if id !in s.jobs then Err(NotFound)
    else
      var j := s.jobs[id];
      if !(j.state in {FAILED, CANCELLED} || (allowCompleted && j.state == COMPLETED)) || !Matches(version, j.version) then Err(Conflict)
      else Ok(s.(jobs := s.jobs - {id}, scans := map k | k in s.scans && s.scans[k].job != id :: s.scans[k], events := Without(s.events, id)))
  }

  /** The scan whose selection is accepted: the latest one that waits for it, if any. */
  ghost predicate AwaitingScan(s: Store, id: JobId, scan: Option<ScanId>) {
    if scan.Some? then
      && scan.value in s.scans && s.scans[scan.value].job == id && s.scans[scan.value].status == ScanAwaitingSelection
      && forall k | k in s.scans && s.scans[k].job == id && s.scans[k].status == ScanAwaitingSelection ::
           s.scans[k].createdAt <= s.scans[scan.value].createdAt
    else forall k | k in s.scans && s.scans[k].job == id :: s.scans[k].status != ScanAwaitingSelection
  }

  function WithScan(s: Store, k: ScanId, status: ScanStatus): Store
    requires k in s.scans
  {
    s.(scans := s.scans[k := s.scans[k].(status := status)])
  }

  ghost function SetSelection(s: Store, id: JobId, version: Option<int>, scan: Option<ScanId>): Written {
    if id !in s.jobs then Err(NotFound)
    else
      var j := s.jobs[id];
      if j.state !in {AWAITING_SELECTION, NEEDS_REVIEW} || !Matches(version, j.version) then Err(Conflict)
      else
        var selected := Logged(WithJob(s, id, j.(selected := true)), id, Selection, None, None);
        var accepted :=
          if scan.Some? && scan.value in selected.scans
          then Logged(WithScan(selected, scan.value, ScanCompleted), id, ScanChange, None, None) else selected;
        Transition(accepted, id, READY, Some("selected"))
  }

  ghost function RecordProgress(s: Store, id: JobId, progress: real, expected: Option<JobState>, emit: bool): Written {
    if !(0.0 <= progress <= 1.0) then Err(Invalid)
    else if id !in s.jobs then Err(NotFound)
    else
      var j := s.jobs[id];
      if (expected.Some? && j.state != expected.value) || j.state in TERMINAL_STATES || j.control == PAUSED then Err(Conflict)
      else
        var s' := WithJob(s, id, j.(progress := AtLeast(j.progress, progress), version := j.version + 1));
        Ok(if emit then Logged(s', id, Progress, None, None) else s')
  }

  ghost function CreateScan(s: Store, k: ScanId, id: JobId, status: ScanStatus): Written {
    if id !in s.jobs then Err(NotFound)
    else if s.jobs[id].state != SCANNING || (status != ScanPending && status != ScanRunning) then Err(Conflict)
    else if k in s.scans then Err(Invalid)
    else Ok(Logged(s.(scans := s.scans[k := Scan(id, status, s.now)]), id, ScanCreated, None, None))
  }

  function ScanMoves(status: ScanStatus): set<ScanStatus> {
    match status
    case ScanPending => {ScanRunning, ScanFailed}
    case ScanRunning => {ScanAwaitingSelection, ScanCompleted, ScanFailed}
    case ScanAwaitingSelection => {ScanCompleted, ScanFailed}
    case _ => {}
  }

  /** What a scan result means for a job that is still scanning. */
  function ScanTarget(status: ScanStatus): Option<JobState> {
    match status
    case ScanAwaitingSelection => Some(AWAITING_SELECTION)
    case ScanCompleted => Some(READY)
    case ScanFailed => Some(FAILED)
    case _ => None
  }

  ghost function UpdateScan(s: Store, k: ScanId, status: ScanStatus, message: Option<string>): Written {
    if k !in s.scans || s.scans[k].job !in s.jobs then Err(NotFound)
    else if status != s.scans[k].status && status !in ScanMoves(s.scans[k].status) then Err(Conflict)
    else
      var id := s.scans[k].job;
      var updated := Logged(WithScan(s, k, status), id, ScanChange, None, None);
      if s.jobs[id].state == SCANNING && ScanTarget(status).Some?
      then Transition(updated, id, ScanTarget(status).value, message) else Ok(updated)
  }

  ghost function AddEvent(s: Store, id: JobId, kind: EventKind): Written {
    if id !in s.jobs then Err(NotFound) else Ok(Logged(s, id, kind, None, None))
  }

  // ---- the state machine --------------------------------------------------------------------

  datatype Op =
    | OpCreate(id: JobId, priority: int)
    | OpClaim(pick: Option<JobId>)
    | OpClaimReady(pick: Option<JobId>)
    | OpTransition(id: JobId, target: JobState, message: Option<string>, version: Option<int>)
    | OpRequestPause(id: JobId, revision: Option<int>)
    | OpRequestCancel(id: JobId, revision: Option<int>)
    | OpAcknowledgePause(id: JobId, revision: Option<int>)
    | OpAcknowledgeCancel(id: JobId, revision: Option<int>)
    | OpResumePaused(id: JobId, revision: Option<int>)
    | OpRetryFailed(id: JobId, version: Option<int>)
    | OpRestartCancelled(id: JobId, version: Option<int>)
    | OpDelete(id: JobId, version: Option<int>, allowCompleted: bool)
    | OpSetSelection(id: JobId, version: Option<int>, scan: Option<ScanId>)
    | OpRecordProgress(id: JobId, progress: real, expected: Option<JobState>, emit: bool)
    | OpCreateScan(scan_: ScanId, id: JobId, status: ScanStatus)
    | OpUpdateScan(scan_: ScanId, status: ScanStatus, message: Option<string>)
    | OpAddEvent(id: JobId, kind: EventKind)
    | OpTick(seconds: nat)

  /** The choices the database makes are those of its queries. */
  ghost predicate Possible(s: Store, op: Op) {
    match op
    case OpClaim(pick) => Picked(s, QUEUED, pick)
    case OpClaimReady(pick) => Picked(s, READY, pick)
    case OpSetSelection(id, _, scan) => AwaitingScan(s, id, scan)
    case _ => true
  }

  ghost function Apply(s: Store, op: Op): Written {
    match op
    case OpCreate(id, priority) => CreateJob(s, id, priority)
    case OpClaim(pick) => Claim(s, PREPARATION_ACTIVE_STATES, QUEUED, SCANNING, pick)
    case OpClaimReady(pick) => Claim(s, BLOCKING_STATES, READY, ENCODING, pick)
    case OpTransition(id, target, message, version) => TransitionJob(s, id, target, message, version)
    case OpRequestPause(id, revision) => RequestPause(s, id, revision)
    case OpRequestCancel(id, revision) => RequestCancel(s, id, revision)
    case OpAcknowledgePause(id, revision) => AcknowledgePause(s, id, revision)
    case OpAcknowledgeCancel(id, revision) => AcknowledgeCancel(s, id, revision)
    case OpResumePaused(id, revision) => ResumePaused(s, id, revision)
    case OpRetryFailed(id, version) => RetryFailed(s, id, version)
    case OpRestartCancelled(id, version) => RestartCancelled(s, id, version)
    case OpDelete(id, version, allowCompleted) => DeleteTerminal(s, id, version, allowCompleted)
    case OpSetSelection(id, version, scan) => SetSelection(s, id, version, scan)
    case OpRecordProgress(id, progress, expected, emit) => RecordProgress(s, id, progress, expected, emit)
    case OpCreateScan(k, id, status) => CreateScan(s, k, id, status)
    case OpUpdateScan(k, status, message) => UpdateScan(s, k, status, message)
    case OpAddEvent(id, kind) => AddEvent(s, id, kind)
    case OpTick(seconds) => Ok(s.(now := s.now + seconds))
  }

  /** A refused transaction is rolled back. */
  ghost function Next(s: Store, op: Op): Store { if Apply(s, op).Ok? then Apply(s, op).value else s }

  function EmptyStore(now: int): Store { Store(map[], map[], [], 1, now) }

  ghost predicate Run(states: seq<Store>, ops: seq<Op>) {
    && |states| == |ops| + 1 && states[0] == EmptyStore(states[0].now)
    && forall k | 0 <= k < |ops| :: Possible(states[k], ops[k]) && states[k + 1] == Next(states[k], ops[k])
  }
}
