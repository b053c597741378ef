/** The job database in the form of its source: methods that read rows, update them and append to
    the log inside a write transaction, which is rolled back on every refusal. */
module JobDatabases {

  import opened Wrappers
  import opened JobStates
  import opened JobModel
  import opened JobSafety
  import opened JobPromises

  predicate Waits(scans: map<ScanId, Scan>, id: JobId, k: ScanId) {
    k in scans && scans[k].job == id && scans[k].status == ScanAwaitingSelection
  }

  /** The latest scan among `seen` that waits for a selection, if any does. */
  ghost predicate Latest(scans: map<ScanId, Scan>, seen: set<ScanId>, id: JobId, scan: Option<ScanId>) {
    && (scan.None? ==> forall k | k in seen :: !Waits(scans, id, k))
    && (scan.Some? ==> Waits(scans, id, scan.value))
    && (scan.Some? ==> forall k | k in seen && Waits(scans, id, k) :: scans[k].createdAt <= scans[scan.value].createdAt)
  }

  lemma NothingSeen(scans: map<ScanId, Scan>, id: JobId)
    ensures Latest(scans, {}, id, None)
  {
  }

  lemma OneMoreSeen(scans: map<ScanId, Scan>, seen: set<ScanId>, id: JobId, k: ScanId, scan: Option<ScanId>)
    requires Latest(scans, seen, id, scan) && k in scans
    ensures Waits(scans, id, k) && (scan.None? || scans[k].createdAt > scans[scan.value].createdAt) ==> Latest(scans, seen + {k}, id, Some(k))
    ensures !(Waits(scans, id, k) && (scan.None? || scans[k].createdAt > scans[scan.value].createdAt)) ==> Latest(scans, seen + {k}, id, scan)
  {
  }

  lemma AllSeen(s: Store, id: JobId, scan: Option<ScanId>)
    requires Latest(s.scans, s.scans.Keys, id, scan)
    ensures AwaitingScan(s, id, scan)
  {
    assert forall k | k in s.scans && s.scans[k].job == id && s.scans[k].status == ScanAwaitingSelection :: Waits(s.scans, id, k);
  }

  class Database {
    var jobs: map<JobId, Job>
    var scans: map<ScanId, Scan>
    var events: seq<Event>
    var nextEvent: nat
    var now: int

    function Contents(): Store
      reads this
    {
      Store(jobs, scans, events, nextEvent, now)
    }

    constructor (now: int)
      ensures Contents() == EmptyStore(now) && Inv(Contents())
    {
      jobs, scans, events, nextEvent, this.now := map[], map[], [], 1, now;
      new;
      EmptyIsSafe(now);
    }

    /** The transaction did what `op` does, or was rolled back with its refusal. */
    ghost predicate Performed(before: Store, op: Op, r: Result<(), Refusal>)
      reads this
    {
      && Contents() == Next(before, op)
      && match Apply(before, op)
         case Ok(_) => r == Ok(())
         case Err(e) => r == Err(e)
    }

    /** What a nested step reports, in the same terms. */
    ghost predicate Wrote(before: Store, w: Written, r: Result<(), Refusal>)
      reads this
    {
      match w
      case Ok(s) => r == Ok(()) && Contents() == s
      case Err(e) => r == Err(e) && Contents() == before
    }

    method Rollback(saved: Store)
      modifies this
      ensures Contents() == saved
    {
      jobs, scans, events, nextEvent, now := saved.jobs, saved.scans, saved.events, saved.nextEvent, saved.now;
    }

    method InsertEvent(id: JobId, kind: EventKind, from: Option<JobState>, to: Option<JobState>)
      modifies this`events, this`nextEvent
      ensures Contents() == Logged(old(Contents()), id, kind, from, to)
    {
      events := events + [Event(nextEvent, id, kind, from, to, now)];
      nextEvent := nextEvent + 1;
    }

    /** The columns of a move. */
    method NextRow(row: Job, target: JobState, message: Option<string>) returns (moved: Job)
      ensures moved == Moved(row, target, message, now)
    {
      hide Baseline, AtLeast;
      var startedAt, finishedAt, progress, error, nextResume := row.startedAt, row.finishedAt, row.progress, row.error, row.resume;
      if row.state == QUEUED && target == SCANNING {
        startedAt := Some(now);
      }
      var baseline := Baseline(target);
      if row.state == NEEDS_REVIEW && target == READY {
        progress := baseline;
      } else if baseline.Some? {
        progress := AtLeast(progress, baseline.value);
      }
      if target == NEEDS_REVIEW {
        nextResume := Some(row.state);
      } else if row.state == NEEDS_REVIEW {
        nextResume := None;
      }
      if target in TERMINAL_STATES {
        finishedAt := Some(now);
        nextResume := None;
        if target == COMPLETED {
          progress := Some(1.0);
        }
      }
      if target == FAILED {
        error := if message.Some? && message.value != "" then message else Some("job failed");
        nextResume := Some(row.state);
      }
      moved := row.(state := target, version := row.version + 1, startedAt := startedAt, finishedAt := finishedAt,
                    progress := progress, error := error, resume := nextResume);
    }

    /** The checked move of one row; the update itself fails when an index refuses it. */
    method TransitionInConnection(id: JobId, target: JobState, message: Option<string>) returns (r: Result<(), Refusal>)
      requires id in jobs
      modifies this
      ensures Wrote(old(Contents()), Transition(old(Contents()), id, target, message), r)
      ensures old(Inv(Contents())) ==> MovePromise(old(Contents()), Contents(), id, target, r)
      ensures old(Inv(Contents())) && old(jobs[id]).control == RUNNING ==> Inv(Contents())
    {
      hide Lanes, LaneFree, Inv, Kept, MovePromise, JobOK, Moved, AllowedTransitions;
      if Inv(Contents()) {
        MoveIsAsPromised(Contents(), id, target, message);
        if jobs[id].control == RUNNING {
          MoveKeepsTheStore(Contents(), id, target, message);
        }
      }
      var row := jobs[id];
      var current := row.state;
      if row.control != RUNNING && target != CANCELLED {
        return Err(Conflict);
      }
      if target !in AllowedTransitions(current, row.resume) {
        return Err(Illegal);
      }
      var moved := NextRow(row, target, message);
      if !Lanes(jobs[id := moved]) {
        return Err(QueueBlocked);
      }
      jobs := jobs[id := moved];
      InsertEvent(id, StateChange, Some(current), Some(target));
      return Ok(());
    }

    method SetControlInConnection(id: JobId, target: Control, kind: EventKind) returns (r: Result<(), Refusal>)
      requires id in jobs
      modifies this
      ensures Wrote(old(Contents()), SetControl(old(Contents()), id, target, kind), r)
      ensures old(Inv(Contents())) ==> ControlPromise(old(Contents()), Contents(), id, target, r)
      ensures old(Inv(Contents())) && JobOK(old(jobs[id]).(control := target)) ==> Inv(Contents())
    {
      hide Lanes, LaneFree, Inv, Kept, ControlPromise, JobOK;
      if Inv(Contents()) {
        ControlIsAsPromised(Contents(), id, target, kind);
        if JobOK(jobs[id].(control := target)) && SetControl(Contents(), id, target, kind).Ok? {
          ControlKeepsInv(Contents(), id, target, kind);
        }
      }
      var row := jobs[id].(control := target, controlRevision := jobs[id].controlRevision + 1);
      if !Lanes(jobs[id := row]) {
        return Err(QueueBlocked);
      }
      jobs := jobs[id := row];
      InsertEvent(id, kind, None, None);
      return Ok(());
    }

    method CreateJob(id: JobId, priority: int) returns (r: Result<(), Refusal>)
      modifies this
      ensures Performed(old(Contents()), OpCreate(id, priority), r)
      ensures old(Inv(Contents())) ==> Kept(old(Contents()), Contents(), OpCreate(id, priority))
    {
      hide Inv, Kept;
      EveryTransactionKeeps(Contents(), OpCreate(id, priority));
      if id in jobs {
        return Err(Invalid);
      }
      jobs := jobs[id := Job(QUEUED, RUNNING, 1, 1, priority, now, None, None, None, false, None, None)];
      InsertEvent(id, JobCreated, None, Some(QUEUED));
      return Ok(());
    }

    /** `ORDER BY priority DESC, created_at ASC LIMIT 1` over the eligible rows. */
    method FirstInLine(state: JobState) returns (pick: Option<JobId>)
      ensures Picked(Contents(), state, pick) && (pick.Some? ==> pick.value in jobs)
    {
      pick := None;
      var left := jobs.Keys;
      ghost var seen: set<JobId> := {};
      while left != {}
        invariant left <= jobs.Keys && seen == jobs.Keys - left
        invariant pick.None? ==> forall o | o in seen :: !Eligible(Contents(), o, state)
        invariant pick.Some? ==> Eligible(Contents(), pick.value, state)
        invariant pick.Some? ==> forall o | o in seen && Eligible(Contents(), o, state) ::
            jobs[o].priority < jobs[pick.value].priority
            || (jobs[o].priority == jobs[pick.value].priority && jobs[o].createdAt >= jobs[pick.value].createdAt)
        decreases |left|
      {
        var id :| id in left;
        left, seen := left - {id}, seen + {id};
        if jobs[id].state == state && jobs[id].control == RUNNING {
          if pick.None?
             || jobs[id].priority > jobs[pick.value].priority
             || (jobs[id].priority == jobs[pick.value].priority && jobs[id].createdAt < jobs[pick.value].createdAt) {
            pick := Some(id);
          }
        }
      }
      assert forall o | Eligible(Contents(), o, state) :: o in seen;
    }

    /** Claim the first queued job for the scan lane. With the invariant it is never refused. */
    method ClaimNextJob() returns (r: Result<(), Refusal>, ghost pick: Option<JobId>)
      modifies this
      ensures Possible(old(Contents()), OpClaim(pick)) && Performed(old(Contents()), OpClaim(pick), r)
      ensures old(Inv(Contents())) ==> r == Ok(())
      ensures old(Inv(Contents())) ==> Kept(old(Contents()), Contents(), OpClaim(pick))
    {
      hide Inv, Transition, Picked, Kept;
      ghost var before := Contents();
      var next := FirstInLine(QUEUED);
      pick := next;
      EveryTransactionKeeps(before, OpClaim(pick));
      if Inv(before) {
        ClaimIsNeverRefused(before, PREPARATION_ACTIVE_STATES, QUEUED, SCANNING, pick);
      }
      if Busy(jobs, PREPARATION_ACTIVE_STATES) || next.None? {
        return Ok(()), pick;
      }
      r := TransitionInConnection(next.value, SCANNING, Some("claimed"));
    }

    /** Claim the first configured job for the encode lane. */
    method ClaimNextReadyJob() returns (r: Result<(), Refusal>, ghost pick: Option<JobId>)
      modifies this
      ensures Possible(old(Contents()), OpClaimReady(pick)) && Performed(old(Contents()), OpClaimReady(pick), r)
      ensures old(Inv(Contents())) ==> r == Ok(())
      ensures old(Inv(Contents())) ==> Kept(old(Contents()), Contents(), OpClaimReady(pick))
    {
      hide Inv, Transition, Picked, Kept;
      ghost var before := Contents();
      var next := FirstInLine(READY);
      pick := next;
      EveryTransactionKeeps(before, OpClaimReady(pick));
      if Inv(before) {
        ClaimIsNeverRefused(before, BLOCKING_STATES, READY, ENCODING, pick);
      }
      if Busy(jobs, BLOCKING_STATES) || next.None? {
        return Ok(()), pick;
      }
      r := TransitionInConnection(next.value, ENCODING, Some("claimed"));
    }

    method TransitionJob(id: JobId, target: JobState, message: Option<string>, version: Option<int>) returns (r: Result<(), Refusal>)
      modifies this
      ensures Performed(old(Contents()), OpTransition(id, target, message, version), r)
      ensures old(Inv(Contents())) ==> Kept(old(Contents()), Contents(), OpTransition(id, target, message, version))
      ensures old(Inv(Contents())) ==> (id in old(jobs) && target != CANCELLED && Matches(version, old(jobs[id]).version) ==>
                MovePromise(old(Contents()), Contents(), id, target, r))
      ensures old(Inv(Contents())) ==> (id in old(jobs) && target == CANCELLED && Matches(version, old(jobs[id]).version) ==>
                CancelPromise(old(Contents()), Contents(), id, None, r))
      ensures old(Inv(Contents())) ==> (r == Err(NotFound) <==> id !in old(jobs)) && (r.Err? ==> Contents() == old(Contents()))
    {
      hide Transition, JobModel.RequestCancel, Inv, Kept;
      EveryTransactionKeeps(Contents(), OpTransition(id, target, message, version));
      if Inv(Contents()) {
        if id in jobs {
          MoveIsAsPromised(Contents(), id, target, message);
        }
        CancelIsAsPromised(Contents(), id, None);
      }
      if id !in jobs {
        return Err(NotFound);
      }
      if version.Some? && jobs[id].version != version.value {
        return Err(Conflict);
      }
      if target == CANCELLED {
        r := RequestCancel(id, None);
      } else {
        r := TransitionInConnection(id, target, message);
      }
    }

    method RequestPause(id: JobId, revision: Option<int>) returns (r: Result<(), Refusal>)
      modifies this
      ensures Performed(old(Contents()), OpRequestPause(id, revision), r)
      ensures old(Inv(Contents())) ==> Kept(old(Contents()), Contents(), OpRequestPause(id, revision))
      ensures old(Inv(Contents())) ==> PausePromise(old(Contents()), Contents(), id, revision, r)
    {
      hide SetControl, Inv, Kept, PausePromise;
      EveryTransactionKeeps(Contents(), OpRequestPause(id, revision));
      if Inv(Contents()) {
        PauseIsAsPromised(Contents(), id, revision);
      }
      if id !in jobs {
        return Err(NotFound);
      }
      var row := jobs[id];
      if revision.Some? && row.controlRevision != revision.value {
        return Err(Conflict);
      }
      if row.state in TERMINAL_STATES {
        return Err(Conflict);
      }
      if row.control == PAUSE_REQUESTED || row.control == PAUSED {
        return Ok(());
      }
      if row.control == CANCEL_REQUESTED {
        return Err(Conflict);
      }
      var target := if row.state in CONTROL_ACTIVE_STATES then PAUSE_REQUESTED else PAUSED;
      r := SetControlInConnection(id, target, PauseRequested);
    }

    /** Transition to CANCELLED and release of the control, in one transaction. */
    method CancelInConnection(id: JobId) returns (r: Result<(), Refusal>)
      requires id in jobs
      modifies this
      ensures Wrote(old(Contents()), Cancel(old(Contents()), id), r)
    {
      hide Lanes, Moved;
      var saved := Contents();
      r := TransitionInConnection(id, CANCELLED, None);
      if r.Ok? {
        r := SetControlInConnection(id, RUNNING, EventKind.Cancelled);
        if r.Err? {
          Rollback(saved);
        }
      }
    }

    method RequestCancel(id: JobId, revision: Option<int>) returns (r: Result<(), Refusal>)
      modifies this
      ensures Performed(old(Contents()), OpRequestCancel(id, revision), r)
      ensures old(Inv(Contents())) ==> Kept(old(Contents()), Contents(), OpRequestCancel(id, revision))
      ensures old(Inv(Contents())) ==> CancelPromise(old(Contents()), Contents(), id, revision, r)
    {
      hide SetControl, Cancel, Inv, Kept, CancelPromise;
      EveryTransactionKeeps(Contents(), OpRequestCancel(id, revision));
      if Inv(Contents()) {
        CancelIsAsPromised(Contents(), id, revision);
      }
      if id !in jobs {
        return Err(NotFound);
      }
      var row := jobs[id];
      if revision.Some? && row.controlRevision != revision.value {
        return Err(Conflict);
      }
      if row.state == CANCELLED {
        return Ok(());
      }
      if row.state == COMPLETED || row.state == FAILED {
        return Err(Conflict);
      }
      if row.control == CANCEL_REQUESTED {
        return Ok(());
      }
      var active := row.state in CONTROL_ACTIVE_STATES && row.control != PAUSED;
      if active {
        r := SetControlInConnection(id, CANCEL_REQUESTED, CancelRequested);
        return;
      }
      r := CancelInConnection(id);
    }

    method AcknowledgePause(id: JobId, revision: Option<int>) returns (r: Result<(), Refusal>)
      modifies this
      ensures Performed(old(Contents()), OpAcknowledgePause(id, revision), r)
      ensures old(Inv(Contents())) ==> Kept(old(Contents()), Contents(), OpAcknowledgePause(id, revision))
      ensures old(Inv(Contents())) ==> PausedPromise(old(Contents()), Contents(), id, revision, r)
    {
      hide SetControl, Inv, Kept, PausedPromise;
      EveryTransactionKeeps(Contents(), OpAcknowledgePause(id, revision));
      if Inv(Contents()) {
        PausedIsAsPromised(Contents(), id, revision);
      }
      if id !in jobs {
        return Err(NotFound);
      }
      var row := jobs[id];
      if revision.Some? && row.controlRevision != revision.value {
        return Err(Conflict);
      }
      if row.control == PAUSED {
        return Ok(());
      }
      if row.control != PAUSE_REQUESTED {
        return Err(Conflict);
      }
      r := SetControlInConnection(id, PAUSED, EventKind.Paused);
    }

    method AcknowledgeCancel(id: JobId, revision: Option<int>) returns (r: Result<(), Refusal>)
      modifies this
      ensures Performed(old(Contents()), OpAcknowledgeCancel(id, revision), r)
      ensures old(Inv(Contents())) ==> Kept(old(Contents()), Contents(), OpAcknowledgeCancel(id, revision))
      ensures old(Inv(Contents())) ==> CancelledPromise(old(Contents()), Contents(), id, revision, r)
    {
      hide Cancel, Inv, Kept, CancelledPromise;
      EveryTransactionKeeps(Contents(), OpAcknowledgeCancel(id, revision));
      if Inv(Contents()) {
        CancelledIsAsPromised(Contents(), id, revision);
      }
      if id !in jobs {
        return Err(NotFound);
      }
      var row := jobs[id];
      if revision.Some? && row.controlRevision != revision.value {
        return Err(Conflict);
      }
      if row.state == CANCELLED {
        return Ok(());
      }
      if row.control != CANCEL_REQUESTED {
        return Err(Conflict);
      }
      r := CancelInConnection(id);
    }

    method ResumePausedJob(id: JobId, revision: Option<int>) returns (r: Result<(), Refusal>)
      modifies this
      ensures Performed(old(Contents()), OpResumePaused(id, revision), r)
      ensures old(Inv(Contents())) ==> Kept(old(Contents()), Contents(), OpResumePaused(id, revision))
      ensures old(Inv(Contents())) ==> ResumePromise(old(Contents()), Contents(), id, revision, r)
    {
      hide SetControl, Inv, Kept, ResumePromise;
      EveryTransactionKeeps(Contents(), OpResumePaused(id, revision));
      if Inv(Contents()) {
        ResumeIsAsPromised(Contents(), id, revision);
      }
      if id !in jobs {
        return Err(NotFound);
      }
      var row := jobs[id];
      if revision.Some? && row.controlRevision != revision.value {
        return Err(Conflict);
      }
      if row.control != PAUSED || row.state in TERMINAL_STATES {
        return Err(Conflict);
      }
      r := SetControlInConnection(id, RUNNING, Resumed);
    }

    /** `ORDER BY id DESC LIMIT 1` over the lines of a job that carry a state. */
    method FailureEvent(id: JobId) returns (link: Option<Event>)
      ensures link == LatestLink(events, id)
    {
      var n := |events|;
      assert events[..n] == events;
      while n > 0
        invariant 0 <= n <= |events| && LatestLink(events, id) == LatestLink(events[..n], id)
      {
        var e := events[n - 1];
        assert events[..n][..n - 1] == events[..n - 1];
        if e.job == id && (e.from.Some? || e.to.Some?) {
          return Some(e);
        }
        n := n - 1;
      }
      return None;
    }

    method RetryFailedJob(id: JobId, version: Option<int>) returns (r: Result<(), Refusal>)
      modifies this
      ensures Performed(old(Contents()), OpRetryFailed(id, version), r)
      ensures old(Inv(Contents())) ==> Kept(old(Contents()), Contents(), OpRetryFailed(id, version))
      ensures old(Inv(Contents())) ==> RetryPromise(old(Contents()), Contents(), id, version, r)
    {
      hide Lanes, LaneFree, LatestLink, Inv, Kept, RetryPromise;
      EveryTransactionKeeps(Contents(), OpRetryFailed(id, version));
      if Inv(Contents()) {
        RetryIsAsPromised(Contents(), id, version);
      }
      if id !in jobs {
        return Err(NotFound);
      }
      var row := jobs[id];
      if row.state != FAILED {
        return Err(Conflict);
      }
      if version.Some? && row.version != version.value {
        return Err(Conflict);
      }
      var failure := FailureEvent(id);
      if failure.None? || failure.value.kind != StateChange || failure.value.to != Some(FAILED) || failure.value.from.None? {
        return Err(NoProvenance);
      }
      var stage := failure.value.from.value;
      if row.resume.Some? && row.resume.value != stage {
        return Err(ProvenanceMismatch);
      }
      if stage !in RETRYABLE_FAILED_STAGES {
        return Err(NotRetryable);
      }
      if stage != READY && exists o | o in jobs :: o != id && jobs[o].state in BLOCKING_STATES {
        return Err(QueueBlocked);
      }
      var retried := row.(state := stage, error := None, resume := None, progress := Baseline(stage), finishedAt := None, version := row.version + 1);
      if !Lanes(jobs[id := retried]) {
        return Err(QueueBlocked);
      }
      jobs := jobs[id := retried];
      InsertEvent(id, Retry, Some(FAILED), Some(stage));
      return Ok(());
    }

    method RestartCancelledJob(id: JobId, version: Option<int>) returns (r: Result<(), Refusal>)
      modifies this
      ensures Performed(old(Contents()), OpRestartCancelled(id, version), r)
      ensures old(Inv(Contents())) ==> Kept(old(Contents()), Contents(), OpRestartCancelled(id, version))
      ensures old(Inv(Contents())) ==> RestartPromise(old(Contents()), Contents(), id, version, r)
    {
      hide Inv, Kept, RestartPromise;
      EveryTransactionKeeps(Contents(), OpRestartCancelled(id, version));
      if Inv(Contents()) {
        RestartIsAsPromised(Contents(), id, version);
      }
      if id !in jobs {
        return Err(NotFound);
      }
      var row := jobs[id];
      if row.state != CANCELLED {
        return Err(Conflict);
      }
      if version.Some? && row.version != version.value {
        return Err(Conflict);
      }
      var successfulScan := exists k | k in scans :: scans[k].job == id && (scans[k].status == ScanAwaitingSelection || scans[k].status == ScanCompleted);
      assert successfulScan == Scanned(Contents(), id);
      var target: JobState;
      if successfulScan && row.selected {
        target := READY;
      } else if successfulScan {
        target := AWAITING_SELECTION;
      } else {
        target := QUEUED;
      }
      hide Scanned;
      jobs := jobs[id := row.(state := target, error := None, resume := None, progress := Baseline(target), finishedAt := None,
                              startedAt := if target == QUEUED then None else row.startedAt, version := row.version + 1)];
      InsertEvent(id, Restart, Some(row.state), Some(target));
      return Ok(());
    }

    /** Delete a terminal job; its scans and its lines go with it. */
    method DeleteTerminalJob(id: JobId, version: Option<int>, allowCompleted: bool) returns (r: Result<(), Refusal>)
      modifies this
      ensures Performed(old(Contents()), OpDelete(id, version, allowCompleted), r)
      ensures old(Inv(Contents())) ==> Kept(old(Contents()), Contents(), OpDelete(id, version, allowCompleted))
      ensures DeletePromise(old(Contents()), Contents(), id, version, allowCompleted, r)
    {
      hide Without, Inv, Kept, DeletePromise;
      EveryTransactionKeeps(Contents(), OpDelete(id, version, allowCompleted));
      DeleteIsAsPromised(Contents(), id, version, allowCompleted);
      if id !in jobs {
        return Err(NotFound);
      }
      var row := jobs[id];
      var deletable := {FAILED, CANCELLED};
      if allowCompleted {
        deletable := deletable + {COMPLETED};
      }
      if row.state !in deletable {
        return Err(Conflict);
      }
      if version.Some? && row.version != version.value {
        return Err(Conflict);
      }
      jobs := jobs - {id};
      scans := map k | k in scans && scans[k].job != id :: scans[k];
      events := Without(events, id);
      return Ok(());
    }

    /** The latest scan of a job that waits for a selection. */
    method ScanAwaiting(id: JobId) returns (scan: Option<ScanId>)
      ensures AwaitingScan(Contents(), id, scan)
    {
      hide Latest, AwaitingScan;
      scan := None;
      var left := scans.Keys;
      ghost var seen: set<ScanId> := {};
      NothingSeen(scans, id);
      while left != {}
        invariant left <= scans.Keys && seen == scans.Keys - left
        invariant Latest(scans, seen, id, scan) && (scan.Some? ==> scan.value in scans)
        decreases |left|
      {
        var k :| k in left;
        OneMoreSeen(scans, seen, id, k, scan);
        left, seen := left - {k}, seen + {k};
        if Waits(scans, id, k) && (scan.None? || scans[k].createdAt > scans[scan.value].createdAt) {
          scan := Some(k);
        }
      }
      assert seen == scans.Keys;
      AllSeen(Contents(), id, scan);
    }

    /** Store a selection, close the scan that waited for it, and make the job ready. */
    method SetSelection(id: JobId, version: Option<int>) returns (r: Result<(), Refusal>, ghost scan: Option<ScanId>)
      modifies this
      ensures Possible(old(Contents()), OpSetSelection(id, version, scan)) && Performed(old(Contents()), OpSetSelection(id, version, scan), r)
      ensures old(Inv(Contents())) ==> Kept(old(Contents()), Contents(), OpSetSelection(id, version, scan))
      ensures old(Inv(Contents())) ==> SelectionPromise(old(Contents()), Contents(), id, version, scan, r)
    {
      hide Transition, AwaitingScan, Inv, Kept, SelectionPromise, MovePromise;
      var awaiting := ScanAwaiting(id);
      scan := awaiting;
      EveryTransactionKeeps(Contents(), OpSetSelection(id, version, scan));
      if Inv(Contents()) {
        SelectionIsAsPromised(Contents(), id, version, scan);
      }
      if id !in jobs {
        return Err(NotFound), scan;
      }
      var row := jobs[id];
      if row.state != AWAITING_SELECTION && row.state != NEEDS_REVIEW {
        return Err(Conflict), scan;
      }
      if version.Some? && row.version != version.value {
        return Err(Conflict), scan;
      }
      var saved := Contents();
      jobs := jobs[id := row.(selected := true)];
      InsertEvent(id, Selection, None, None);
      if awaiting.Some? && awaiting.value in scans {
        scans := scans[awaiting.value := scans[awaiting.value].(status := ScanCompleted)];
        InsertEvent(id, ScanChange, None, None);
      }
      r := TransitionInConnection(id, READY, Some("selected"));
      if r.Err? {
        Rollback(saved);
      }
    }

    method RecordProgress(id: JobId, progress: real, expected: Option<JobState>, emit: bool) returns (r: Result<(), Refusal>)
      modifies this
      ensures Performed(old(Contents()), OpRecordProgress(id, progress, expected, emit), r)
      ensures old(Inv(Contents())) ==> Kept(old(Contents()), Contents(), OpRecordProgress(id, progress, expected, emit))
      ensures old(Inv(Contents())) ==> ProgressPromise(old(Contents()), Contents(), id, progress, expected, r)
    {
      hide Inv, Kept, ProgressPromise;
      EveryTransactionKeeps(Contents(), OpRecordProgress(id, progress, expected, emit));
      if Inv(Contents()) {
        ProgressIsAsPromised(Contents(), id, progress, expected, emit);
      }
      if !(0.0 <= progress <= 1.0) {
        return Err(Invalid);
      }
      if id !in jobs {
        return Err(NotFound);
      }
      var row := jobs[id];
      if (expected.Some? && row.state != expected.value) || row.state in TERMINAL_STATES || row.control == PAUSED {
        return Err(Conflict);
      }
      var previous := if row.progress.Some? then row.progress.value else 0.0;
      var effective := if previous > progress then previous else progress;
      jobs := jobs[id := row.(progress := Some(effective), version := row.version + 1)];
      if emit {
        InsertEvent(id, Progress, None, None);
      }
      return Ok(());
    }

    method CreateScan(scan: ScanId, id: JobId, status: ScanStatus) returns (r: Result<(), Refusal>)
      modifies this
      ensures Performed(old(Contents()), OpCreateScan(scan, id, status), r)
      ensures old(Inv(Contents())) ==> Kept(old(Contents()), Contents(), OpCreateScan(scan, id, status))
      ensures ScanPromise(old(Contents()), Contents(), scan, id, status, r)
    {
      hide Inv, Kept, ScanPromise;
      EveryTransactionKeeps(Contents(), OpCreateScan(scan, id, status));
      ScanIsAsPromised(Contents(), scan, id, status);
      if id !in jobs {
        return Err(NotFound);
      }
      if jobs[id].state != SCANNING {
        return Err(Conflict);
      }
      if status != ScanPending && status != ScanRunning {
        return Err(Conflict);
      }
      if scan in scans {
        return Err(Invalid);
      }
      scans := scans[scan := Scan(id, status, now)];
      InsertEvent(id, ScanCreated, None, None);
      return Ok(());
    }

    /** Update a scan and, while its job still scans, move the job with it. */
    method UpdateScan(scan: ScanId, status: ScanStatus, message: Option<string>) returns (r: Result<(), Refusal>)
      modifies this
      ensures Performed(old(Contents()), OpUpdateScan(scan, status, message), r)
      ensures old(Inv(Contents())) ==> Kept(old(Contents()), Contents(), OpUpdateScan(scan, status, message))
      ensures old(Inv(Contents())) ==> ScanResultPromise(old(Contents()), Contents(), scan, status, r)
    {
      hide Transition, AllowedTransitions, Lanes, Inv, Kept, ScanResultPromise, MovePromise;
      EveryTransactionKeeps(Contents(), OpUpdateScan(scan, status, message));
      if Inv(Contents()) {
        ScanResultIsAsPromised(Contents(), scan, status, message);
      }
      if scan !in scans {
        return Err(NotFound);
      }
      if scans[scan].job !in jobs {
        return Err(NotFound);
      }
      if status != scans[scan].status && status !in ScanMoves(scans[scan].status) {
        return Err(Conflict);
      }
      var saved := Contents();
      var id := scans[scan].job;
      scans := scans[scan := scans[scan].(status := status)];
      InsertEvent(id, ScanChange, None, None);
      r := Ok(());
      if jobs[id].state == SCANNING {
        if status == ScanAwaitingSelection {
          r := TransitionInConnection(id, AWAITING_SELECTION, message);
        } else if status == ScanCompleted {
          r := TransitionInConnection(id, READY, message);
        } else if status == ScanFailed {
          r := TransitionInConnection(id, FAILED, message);
        }
      }
      if r.Err? {
        Rollback(saved);
      }
    }
  }
}
