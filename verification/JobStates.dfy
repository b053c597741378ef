/** The durable vocabulary of jobs: pipeline states, operator control, and the legal moves. */
module JobStates {

  import opened Wrappers

  datatype JobState =
    | QUEUED | SCANNING | AWAITING_SELECTION | READY | ENCODING | MUXING | QC | COMPARISON
    | UPLOADING | COMPLETED | FAILED | CANCELLED | NEEDS_REVIEW | UPLOAD_FAILED

  datatype Control = RUNNING | PAUSE_REQUESTED | PAUSED | CANCEL_REQUESTED

  datatype Operation =
    | DoPause | DoResume | DoCancel | DoRetryFailed | DoRestartCancelled | DoCleanup | DoDelete | DoPrepareRelease
    | DoDeleteRelease

  const TERMINAL_STATES := {COMPLETED, FAILED, CANCELLED}

  const RETRYABLE_FAILED_STAGES := {READY, ENCODING, MUXING, QC, COMPARISON}

  const PREPARATION_ACTIVE_STATES := {SCANNING}

  const BLOCKING_STATES := {ENCODING, MUXING, QC, COMPARISON, UPLOADING, NEEDS_REVIEW, UPLOAD_FAILED}

  const CONTROL_ACTIVE_STATES := {SCANNING, ENCODING, MUXING, QC, COMPARISON, UPLOADING}

  function NormalTransitions(state: JobState): set<JobState> {
    match state
    case QUEUED => {SCANNING}
    case SCANNING => {AWAITING_SELECTION, READY, NEEDS_REVIEW}
    case AWAITING_SELECTION => {READY}
    case READY => {ENCODING, NEEDS_REVIEW}
    case ENCODING => {MUXING, NEEDS_REVIEW}
    case MUXING => {QC, NEEDS_REVIEW}
    case QC => {COMPARISON, NEEDS_REVIEW}
    case COMPARISON => {UPLOADING, NEEDS_REVIEW}
    case UPLOADING => {COMPLETED, UPLOAD_FAILED, NEEDS_REVIEW}
    case UPLOAD_FAILED => {UPLOADING, NEEDS_REVIEW}
    case _ => {}
  }

  /** The legal targets, with failure, cancellation and the resumption of a review. */
  function AllowedTransitions(state: JobState, resume: Option<JobState>): set<JobState> {
    if state in TERMINAL_STATES then {}
    else
      NormalTransitions(state) + {FAILED, CANCELLED}
      + (if state == NEEDS_REVIEW && resume.Some? then {resume.value, READY} else {})
  }

  datatype EventKind =
    | JobCreated | StateChange | Retry | Restart | Progress | Selection
    | PauseRequested | Paused | Resumed | CancelRequested | Cancelled
    | ScanCreated | ScanChange

  /** One line of the append-only log. */
  datatype Event = Event(id: nat, job: nat, kind: EventKind, from: Option<JobState>, to: Option<JobState>, at: int)
}
