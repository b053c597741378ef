/** What the maintenance invariant means for whole runs in which every claim is made alone and every
    publication is timely: all or
    nothing across crashes, progress of every thread, exclusion of commit and rollback, what the
    lease rule does and does not exclude, and conservation of the moved files. */
module MaintenanceRuns {

  import opened Wrappers
  import opened StoragePaths
  import opened StorageTree
  import opened MaintenanceModel
  import opened MaintenanceSafety
  import opened MaintenanceHistory

  /** All or nothing for one operation: before the domain commit each target is at exactly one of
      origin and quarantine; from the commit on none is at its origin; the end is the one the
      domain decided, and leaves nothing in quarantine. */
  ghost predicate Whole(s: State, op: Id)
    requires op in s.rows
  {
    var row := s.rows[op];
    && (row.phase == Intent || row.phase == Detached ==>
          op !in s.domain && forall i | 0 <= i < |row.targets| :: AtOrigin(s, op, i) || InTrash(s, op, i))
    && (row.phase == Committed ==>
          op in s.domain && forall i | 0 <= i < |row.targets| :: InTrash(s, op, i) || Gone(s, op, i))
    && (row.phase == Finalized ==> op in s.domain && forall i | 0 <= i < |row.targets| :: Unparked(s, op, i))
    && (row.phase == RolledBack ==> op !in s.domain && forall i | 0 <= i < |row.targets| :: Unparked(s, op, i))
  }

  lemma InvIsWhole(s: State, op: Id)
    requires Inv(s) && op in s.rows
    ensures Whole(s, op)
  {
    assert RowOK(s, op);
  }

  /** A run from an empty journal in which every claim is made alone and every publication is of
      targets that nobody wrote and no other operation committed since they were measured. */
  ghost predicate Proper(states: seq<State>, steps: seq<Step>) {
    Run(states, steps) && Fresh(states[0]) && AllAlone(states, steps) && Undisturbed(states, steps) && Timely(states, steps)
  }

  lemma ProperRunKeepsInv(states: seq<State>, steps: seq<Step>, k: nat)
    requires Proper(states, steps) && k < |states|
    ensures Inv(states[k])
  {
    hide Inv, Enabled, After, Alone, Undisturbed, Timely, Fresh;
    TimelyRunKeepsInv(states, steps, k);
  }

  /** All or nothing, at every moment of every such run, with process deaths between any two steps. */
  lemma AllOrNothing(states: seq<State>, steps: seq<Step>, k: nat, op: Id)
    requires Proper(states, steps)
    requires k < |states| && op in states[k].rows
    ensures Whole(states[k], op)
  {
    ProperRunKeepsInv(states, steps, k);
    InvIsWhole(states[k], op);
  }

  /** Unfinished operations never share, contain or nest a path, in any run. */
  lemma UnfinishedOperationsOwnDisjointSubtrees(states: seq<State>, steps: seq<Step>, k: nat, a: Id, b: Id, i: nat, j: nat)
    requires Proper(states, steps) && k < |states|
    requires a in states[k].rows && b in states[k].rows && a != b
    requires Unfinished(states[k].rows[a]) && Unfinished(states[k].rows[b])
    requires i < |states[k].rows[a].targets| && j < |states[k].rows[b].targets|
    ensures var p, q := Original(states[k].rows[a].targets[i]), Original(states[k].rows[b].targets[j]);
            !Within(p, q) && !Within(q, p) && p in states[k].claims && states[k].claims[p] == a
  {
    ProperRunKeepsInv(states, steps, k);
    OverlapIsContainment(Original(states[k].rows[a].targets[i]), Original(states[k].rows[b].targets[j]));
  }

  lemma NoClaimsLeft(s: State, step: Step)
    requires Enabled(s, step) && (step.SaveRolledBack? || step.SaveFinalized?)
    ensures forall p | p in After(s, step).claims :: After(s, step).claims[p] != step.op
  {
    hide Enabled, After;
    StepHasEffect(s, step);
  }

  /** When an operation ends, all its targets share one fate, and the domain decided which. */
  lemma EndsAreUniform(s: State, step: Step)
    requires Inv(s) && Enabled(s, step) && (step.SaveRolledBack? || step.SaveFinalized?)
    ensures var s' := After(s, step);
            && s'.rows[step.op].phase == (if step.op in s.domain then Finalized else RolledBack)
            && (step.op in s.domain ==> forall i | 0 <= i < |s'.rows[step.op].targets| :: Gone(s', step.op, i))
            && (step.op !in s.domain ==> forall i | 0 <= i < |s'.rows[step.op].targets| :: AtOrigin(s', step.op, i))
            && (forall p | p in s'.claims :: s'.claims[p] != step.op)
  {
    hide Inv, Enabled, After, AtOrigin, Gone, Unparked;
    EndOf(s, step);
    RowIsOK(s, step.op);
    PhaseOfSubject(s, step);
    NoClaimsLeft(s, step);
    RowStepMovesNothingAtAll(s, step);
  }

  /** Only lease steps are left for a finished operation. */
  lemma FinishedHasNoThread(s: State, op: Id, q: Worker)
    requires Inv(s) && op in s.rows && !Unfinished(s.rows[op])
    ensures !At(s, op, q)
  {
    if At(s, op, q) {
      OnlyThread(s, op, q, q);
    }
  }

  /** A finished operation stays what it is: nothing but its lease columns can change. */
  lemma EndsAreFinal(s: State, step: Step, op: Id)
    requires Inv(s) && Enabled(s, step) && op in s.rows && !Unfinished(s.rows[op])
    ensures var s' := After(s, step);
            op in s'.rows && s'.rows[op] == s.rows[op].(owner := s'.rows[op].owner, expires := s'.rows[op].expires)
            && (op in s'.domain <==> op in s.domain)
  {
    if HasSubject(step) && step.op == op {
      FinishedHasNoThread(s, op, step.who);
      assert step.Refresh?;
    } else {
      OthersKeepRow(s, step, op);
    }
  }

  // ---- every thread goes on --------------------------------------------------------------------

  /** What the program of a thread does next; where a target is decides between two effects. */
  function NextStep(s: State, op: Id, who: Worker, until: int): Step
    requires At(s, op, who)
  {
    var targets := s.rows[op].targets;
    match PcOf(s, op, who)
    case Staging(i) =>
      if i >= |targets| then SaveDetached(op, who, until)
      else if Original(targets[i]) in s.fs then Park(op, who)
      else SkipPark(op, who)
    case Renamed(_) => SavePark(op, who, until)
    case Staged => Commit(op, who, s.rows[op].kind, s.rows[op].subject)
    case Restoring(k) =>
      if k == 0 || k > |targets| then SaveRolledBack(op, who, until)
      else if Parking(targets[k - 1], op, k - 1) in s.fs then PutTargetBack(op, who)
      else SkipPutBack(op, who)
    case PutBack(_) => SaveRestored(op, who, until)
    case Reaping(i) =>
      if i >= |targets| then SaveFinalized(op, who, until)
      else if Parking(targets[i], op, i) in s.fs then Reap(op, who)
      else SkipReap(op, who)
    case Reaped(_) => SaveReaped(op, who, until)
  }

  /** A thread may write its row, and the next effect of its program is possible. */
  ghost predicate Proceeds(s: State, op: Id, who: Worker)
    requires At(s, op, who)
  {
    s.rows[op].owner == who.owner && forall until :: Enabled(s, NextStep(s, op, who, until))
  }

  lemma StagingProceeds(s: State, op: Id, who: Worker, until: int)
    requires At(s, op, who) && PcOf(s, op, who).Staging? && MaySave(s, op, who)
    requires var i := PcOf(s, op, who).next; i < |s.rows[op].targets| ==> AtOrigin(s, op, i) || InTrash(s, op, i)
    requires PcOf(s, op, who).next <= |s.rows[op].targets|
    ensures Enabled(s, NextStep(s, op, who, until))
  {
    hide Matches, Original, Parking;
  }

  lemma RestoringProceeds(s: State, op: Id, who: Worker, until: int)
    requires At(s, op, who) && PcOf(s, op, who).Restoring? && MaySave(s, op, who)
    requires PcOf(s, op, who).rest <= |s.rows[op].targets|
    requires var k := PcOf(s, op, who).rest; k > 0 ==> AtOrigin(s, op, k - 1) || InTrash(s, op, k - 1)
    ensures Enabled(s, NextStep(s, op, who, until))
  {
    hide Original, Parking;
  }

  lemma ReapingProceeds(s: State, op: Id, who: Worker, until: int)
    requires At(s, op, who) && PcOf(s, op, who).Reaping? && MaySave(s, op, who)
    requires PcOf(s, op, who).next <= |s.rows[op].targets|
    requires var i := PcOf(s, op, who).next; i < |s.rows[op].targets| ==> InTrash(s, op, i) || Gone(s, op, i)
    ensures Enabled(s, NextStep(s, op, who, until))
  {
    hide Matches, Original, Parking;
  }

  lemma SavingProceeds(s: State, op: Id, who: Worker, until: int)
    requires At(s, op, who) && MaySave(s, op, who)
    requires match PcOf(s, op, who)
             case Renamed(i) => i < |s.rows[op].targets|
             case PutBack(i) => i < |s.rows[op].targets|
             case Reaped(i) => i < |s.rows[op].targets|
             case Staged => s.rows[op].phase == Detached && forall j | 0 <= j < |s.rows[op].targets| :: s.rows[op].targets[j].receipt == Moved
             case _ => false
    ensures Enabled(s, NextStep(s, op, who, until))
  {
    hide Matches, Original, Parking;
  }

  /** Under the invariant no thread is ever stuck: none of its checks can fail. */
  lemma EveryThreadProceeds(s: State, op: Id, who: Worker)
    requires Inv(s) && Thread(op, who) in s.threads
    ensures At(s, op, who) && Proceeds(s, op, who)
  {
    hide Inv, Enabled, NextStep, TargetsOK, ThreadsOK, AtOrigin, InTrash, Gone;
    OnlyThread(s, op, who, who);
    RowIsOK(s, op);
    forall until ensures Enabled(s, NextStep(s, op, who, until)) {
      match PcOf(s, op, who)
      case Staging(i) => StagingProceeds(s, op, who, until);
      case Restoring(k) => RestoringProceeds(s, op, who, until);
      case Reaping(i) => ReapingProceeds(s, op, who, until);
      case _ => SavingProceeds(s, op, who, until);
    }
  }

  // ---- commit and rollback exclude each other -------------------------------------------------

  lemma CommitPc(s: State, step: Step)
    requires Enabled(s, step) && step.Commit?
    ensures At(s, step.op, step.who) && PcOf(s, step.op, step.who) == Staged
  {
    hide CommitAccepts;
  }

  lemma StagedForCommit(s: State, step: Step)
    requires Inv(s) && Enabled(s, step) && step.Commit?
    ensures At(s, step.op, step.who) && forall i | 0 <= i < |s.rows[step.op].targets| :: InTrash(s, step.op, i)
  {
    hide Inv;
    CommitPc(s, step);
    StagedFacts(s, step.op, step.who);
  }

  lemma NoRollbackOfCommitted(s: State, op: Id, q: Worker, until: int)
    requires op in s.rows && s.rows[op].phase == Committed
    ensures !Enabled(s, BeginRollback(op, q, until))
  {
  }

  /** The domain transaction commits only while every target is in quarantine, and from then on
      rollback is refused and no thread is inside the operation. */
  lemma CommitExcludesRollback(s: State, step: Step)
    requires Inv(s) && Enabled(s, step) && step.Commit?
    ensures var s' := After(s, step);
            && (forall i | 0 <= i < |s.rows[step.op].targets| :: InTrash(s, step.op, i) && InTrash(s', step.op, i))
            && (forall q, until :: !Enabled(s', BeginRollback(step.op, q, until)))
            && (forall q :: Thread(step.op, q) !in s'.threads)
  {
    hide Inv, Enabled, After, CommitAccepts, TargetsOK;
    CommitFacts(s, step);
    StepHasEffect(s, step);
    StagedForCommit(s, step);
    RowStepMovesNothingAtAll(s, step);
    forall q, until ensures !Enabled(After(s, step), BeginRollback(step.op, q, until)) {
      NoRollbackOfCommitted(After(s, step), step.op, q, until);
    }
    forall q ensures Thread(step.op, q) !in After(s, step).threads {
      if Thread(step.op, q) in s.threads {
        OnlyThread(s, step.op, step.who, q);
      }
    }
  }

  /** A restore of a detached operation has been recorded in its row, or it has ended. */
  predicate RestoreRecorded(s: State, op: Id, i: nat) {
    op in s.rows && i < |s.rows[op].targets|
    && (s.rows[op].phase == RolledBack || (s.rows[op].phase == Detached && s.rows[op].targets[i].receipt == Restored))
  }

  lemma RestoredThread(s: State, op: Id, i: nat, who: Worker)
    requires Inv(s) && RestoreRecorded(s, op, i) && Thread(op, who) in s.threads
    ensures At(s, op, who) && s.rows[op].phase == Detached && CopyOf(s, op, who) == Receipts(s.rows[op].targets)
    ensures PcOf(s, op, who).Restoring? || PcOf(s, op, who).PutBack?
  {
    OnlyThread(s, op, who, who);
    hide Inv;
  }

  /** A restoring thread saves its receipts and then the end, and nothing else. */
  lemma RecordedRestoreSave(s: State, step: Step, i: nat)
    requires Enabled(s, step) && HasSubject(step) && !step.Begin? && !IsClaim(step) && At(s, step.op, step.who)
    requires RestoreRecorded(s, step.op, i) && s.rows[step.op].phase == Detached
    requires PcOf(s, step.op, step.who).Restoring? || PcOf(s, step.op, step.who).PutBack?
    requires CopyOf(s, step.op, step.who) == Receipts(s.rows[step.op].targets)
    ensures step.PutTargetBack? || step.SkipPutBack? || step.SaveRestored? || step.SaveRolledBack? || step.Abandon?
    ensures RestoreRecorded(After(s, step), step.op, i)
  {
    RestorerOnlyRestores(s, step);
    hide Matches, Renaming, Original, Parking, Unclaimed;
  }

  lemma RestorerOnlyRestores(s: State, step: Step)
    requires Enabled(s, step) && HasSubject(step) && !step.Begin? && !IsClaim(step) && At(s, step.op, step.who)
    requires PcOf(s, step.op, step.who).Restoring? || PcOf(s, step.op, step.who).PutBack?
    ensures step.PutTargetBack? || step.SkipPutBack? || step.SaveRestored? || step.SaveRolledBack? || step.Abandon?
  {
    hide Matches, Original, Parking, CommitAccepts;
  }

  lemma RecordedRestoreStep(s: State, step: Step, op: Id, i: nat)
    requires Inv(s) && Enabled(s, step) && RestoreRecorded(s, op, i)
    ensures RestoreRecorded(After(s, step), op, i) && (step.Commit? ==> step.op != op)
  {
    hide Inv, Enabled, After;
    StepHasEffect(s, step);
    if HasSubject(step) && step.op == op && !step.Begin? && !IsClaim(step) {
      RestoredThread(s, op, i, step.who);
      RecordedRestoreSave(s, step, i);
    }
  }

  /** From the first recorded restore of a detached operation until its end, and for ever after, no
      domain transaction can commit it, over any run that keeps the invariant. */
  lemma {:induction false} RecordedRestoreRefusesCommit(states: seq<State>, steps: seq<Step>, from: nat, k: nat, op: Id, i: nat)
    requires Run(states, steps) && from <= k < |states| && forall j | from <= j <= k :: Inv(states[j])
    requires RestoreRecorded(states[from], op, i)
    ensures RestoreRecorded(states[k], op, i)
    ensures forall j | from <= j < k :: !(steps[j].Commit? && steps[j].op == op)
    ensures forall kind, subject :: !CommitAccepts(states[k].rows[op], kind, subject)
  {
    hide Inv, Enabled, After;
    if from < k {
      RecordedRestoreRefusesCommit(states, steps, from, k - 1, op, i);
      RecordedRestoreStep(states[k - 1], steps[k - 1], op, i);
    }
    assert states[k].rows[op].targets[i] in states[k].rows[op].targets;
  }

  lemma StagedFacts(s: State, op: Id, q: Worker)
    requires Inv(s) && At(s, op, q) && PcOf(s, op, q) == Staged
    ensures TargetsOK(s.rows[op]) && s.rows[op].phase == Detached && s.rows[op].owner == q.owner && q.owner.process in s.live
    ensures forall i | 0 <= i < |s.rows[op].targets| :: InTrash(s, op, i) && s.rows[op].targets[i].receipt == Moved
    ensures forall w | Thread(op, w) in s.threads :: w == q
  {
    RowIsOK(s, op);
    OnlyThread(s, op, q, q);
    hide PlacesOK;
    forall w | Thread(op, w) in s.threads ensures w == q {
      OnlyThread(s, op, q, w);
    }
  }

  /** From a staged operation a rollback by its own worker or by another of the same journal. */
  lemma StagedCanStartRollback(s: State, op: Id, q: Worker, b: Worker, until: int) returns (s1: State)
    requires Inv(s) && At(s, op, q) && PcOf(s, op, q) == Staged && b.owner == q.owner
    ensures Enabled(s, BeginRollback(op, b, until)) && s1 == After(s, BeginRollback(op, b, until))
    ensures At(s1, op, b) && PcOf(s1, op, b) == Restoring(|s1.rows[op].targets|)
    ensures At(s1, op, q) && (b != q ==> PcOf(s1, op, q) == Staged)
    ensures s1.rows[op] == Leased(s.rows[op], q.owner, until) && s1.fs == s.fs
    ensures CommitAccepts(s1.rows[op], s.rows[op].kind, s.rows[op].subject)
    ensures TargetsOK(s1.rows[op]) && forall i | 0 <= i < |s1.rows[op].targets| :: InTrash(s1, op, i)
    ensures b == q ==> Inv(s1)
  {
    hide Inv, InTrash, TargetsOK, Matches, Reserved, NoConflict;
    StagedFacts(s, op, q);
    s1 := After(s, BeginRollback(op, b, until));
    forall i | 0 <= i < |s1.rows[op].targets| ensures InTrash(s1, op, i) {
      StillParked(s, s1, op, i);
    }
    LeasedIsOK(s.rows[op], q.owner, until);
    if b == q {
      StepKeepsInv(s, BeginRollback(op, b, until));
    }
  }

  lemma StillParked(s: State, s1: State, op: Id, i: nat)
    requires op in s.rows && op in s1.rows && s1.fs == s.fs && s1.rows[op].targets == s.rows[op].targets
    requires i < |s.rows[op].targets| && InTrash(s, op, i)
    ensures InTrash(s1, op, i)
  {
  }

  lemma LeasedIsOK(row: Row, who: Owner, until: int)
    requires TargetsOK(row)
    ensures TargetsOK(Leased(row, who, until))
  {
  }

  lemma RestorePutsTheLastTargetBack(s: State, op: Id, b: Worker) returns (s': State)
    requires At(s, op, b) && PcOf(s, op, b) == Restoring(|s.rows[op].targets|)
    requires TargetsOK(s.rows[op]) && InTrash(s, op, |s.rows[op].targets| - 1)
    ensures Enabled(s, PutTargetBack(op, b)) && s' == After(s, PutTargetBack(op, b))
    ensures At(s', op, b) && PcOf(s', op, b) == PutBack(|s.rows[op].targets| - 1)
    ensures s'.rows == s.rows && AtOrigin(s', op, |s.rows[op].targets| - 1)
    ensures forall w | w != b :: (Thread(op, w) in s'.threads <==> Thread(op, w) in s.threads)
                                 && (Thread(op, w) in s.threads ==> s'.threads[Thread(op, w)] == s.threads[Thread(op, w)])
  {
    var step := PutTargetBack(op, b);
    OwnPlacesApart(s, op, |s.rows[op].targets| - 1);
    s' := After(s, step);
  }

  lemma CommitNeedsStaged(s: State, op: Id, w: Worker, kind: string, subject: string)
    ensures Enabled(s, Commit(op, w, kind, subject)) ==> At(s, op, w) && PcOf(s, op, w) == Staged
  {
    hide CommitAccepts;
  }

  lemma RestorerIsNotStaged(s1: State, s2: State, op: Id, q: Worker, w: Worker)
    requires Inv(s1) && At(s1, op, q) && At(s2, op, q) && PcOf(s2, op, q) != Staged
    requires w != q ==> (Thread(op, w) in s2.threads <==> Thread(op, w) in s1.threads)
    ensures forall kind, subject :: !Enabled(s2, Commit(op, w, kind, subject))
  {
    hide Inv, Enabled, PcOK, Receipts;
    if Thread(op, w) in s2.threads && w != q {
      OnlyThread(s1, op, q, w);
    }
    forall kind, subject ensures !Enabled(s2, Commit(op, w, kind, subject)) {
      CommitNeedsStaged(s2, op, w, kind, subject);
    }
  }

  lemma StillStaged(s1: State, s2: State, op: Id, q: Worker, kind: string, subject: string)
    requires At(s1, op, q) && PcOf(s1, op, q) == Staged && s2.rows == s1.rows && CommitAccepts(s2.rows[op], kind, subject)
    requires Thread(op, q) in s2.threads && s2.threads[Thread(op, q)] == s1.threads[Thread(op, q)]
    ensures Enabled(s2, Commit(op, q, kind, subject))
  {
  }

  /** Between a rename back and its row save the row alone would still accept the commit with a
      target at its origin. Whether the commit can then be asked for depends on who restores: the
      staged thread itself has left the point from which it asks; beside any other worker of its
      journal it is still there, and the commit goes through. */
  lemma CommitInTheWindowIffAnotherRestores(s: State, op: Id, q: Worker, b: Worker, until: int) returns (s1: State, s2: State)
    requires Inv(s) && At(s, op, q) && PcOf(s, op, q) == Staged && b.owner == q.owner
    ensures Enabled(s, BeginRollback(op, b, until)) && s1 == After(s, BeginRollback(op, b, until))
    ensures Enabled(s1, PutTargetBack(op, b)) && s2 == After(s1, PutTargetBack(op, b))
    ensures op in s2.rows && CommitAccepts(s2.rows[op], s.rows[op].kind, s.rows[op].subject)
    ensures |s2.rows[op].targets| > 0 && AtOrigin(s2, op, |s2.rows[op].targets| - 1)
    ensures (exists w :: Enabled(s2, Commit(op, w, s.rows[op].kind, s.rows[op].subject))) <==> b != q
  {
    hide Inv, Enabled, After, CommitAccepts;
    s1 := StagedCanStartRollback(s, op, q, b, until);
    s2 := RestorePutsTheLastTargetBack(s1, op, b);
    if b == q {
      forall w ensures !Enabled(s2, Commit(op, w, s.rows[op].kind, s.rows[op].subject)) {
        RestorerIsNotStaged(s1, s2, op, q, w);
      }
    } else {
      StillStaged(s1, s2, op, q, s.rows[op].kind, s.rows[op].subject);
    }
  }

  // ---- what the lease rule excludes -----------------------------------------------------------

  /** On one host the lease rule keeps every other journal away from an operation with a live
      thread, and never the thread's own journal. */
  lemma LeaseRuleAdmitsTheOwnJournalOnly(s: State, op: Id, q: Worker, other: Worker, until: int)
    requires Inv(s) && At(s, op, q) && other.owner.process in s.live && other.owner.process.host == q.owner.process.host
    ensures Enabled(s, Refresh(op, other, until)) <==> other.owner == q.owner
    ensures Enabled(s, BeginStage(op, other, until)) <==> other.owner == q.owner && s.rows[op].phase == Intent
    ensures Enabled(s, BeginRollback(op, other, until)) <==> other.owner == q.owner && (s.rows[op].phase == Intent || s.rows[op].phase == Detached)
    ensures Enabled(s, BeginReap(op, other, until)) <==> other.owner == q.owner && s.rows[op].phase == Committed
  {
    hide Inv, PcOK;
    OnlyThread(s, op, q, q);
  }

  predicate OneHost(s: State) {
    && (forall p, q | p in s.live && q in s.live :: p.host == q.host)
    && (forall op, p | op in s.rows && p in s.live :: s.rows[op].owner.process.host == p.host)
  }

  /** On one host a journal none of whose workers is inside an operation claims alone: this is a
      recovery made while the journal is new, before its first request. */
  lemma RecoveryByAnIdleJournalIsAlone(s: State, step: Step)
    requires Inv(s) && OneHost(s) && Enabled(s, step) && IsClaim(step)
    requires forall t | t in s.threads :: t.worker.owner != step.who.owner
    ensures Alone(s, step)
  {
    if w :| Thread(step.op, w) in s.threads {
      OnlyThread(s, step.op, w, w);
      assert false;
    }
  }

  /** After a crash of its owner, an unfinished operation can be claimed by any process of the
      host at once, and nobody else is at work on it: nothing is orphaned. */
  lemma CrashFreesTheLease(s: State, op: Id, other: Worker, until: int)
    requires Inv(s) && op in s.rows && Unfinished(s.rows[op]) && s.rows[op].owner.process in s.live
    requires other.owner.process in s.live && other.owner.process.host == s.rows[op].owner.process.host
    requires other.owner.process != s.rows[op].owner.process
    ensures var s' := After(s, Crash(s.rows[op].owner.process));
            var claim := if op in s.domain then BeginReap(op, other, until) else BeginRollback(op, other, until);
            Enabled(s', claim) && Alone(s', claim)
  {
    assert RowOK(s, op);
  }

  // ---- conservation ---------------------------------------------------------------------------

  /** The object a target stands for, wherever it is now. */
  function Holding(s: State, op: Id, i: nat): Option<Entry>
    requires op in s.rows && i < |s.rows[op].targets|
  {
    var t := s.rows[op].targets[i];
    if Parking(t, op, i) in s.fs then Some(s.fs[Parking(t, op, i)])
    else if Original(t) in s.fs then Some(s.fs[Original(t)])
    else None
  }

  lemma TargetIsStatic(s: State, step: Step, op: Id, i: nat)
    requires Enabled(s, step) && op in s.rows && i < |s.rows[op].targets| && !step.Begin?
    ensures op in After(s, step).rows && |After(s, step).rows[op].targets| == |s.rows[op].targets|
    ensures var t, t' := s.rows[op].targets[i], After(s, step).rows[op].targets[i]; t' == t.(receipt := t'.receipt)
  {
    TargetsAreStatic(s, step, op);
  }

  lemma FsStepKeepsRows(s: State, step: Step)
    requires Enabled(s, step) && IsFsStep(step)
    ensures After(s, step).rows == s.rows
  {
  }

  lemma MoveConservesItsTarget(s: State, step: Step)
    requires Inv(s) && Enabled(s, step) && (step.Park? || step.PutTargetBack?)
    ensures After(s, step).rows == s.rows
    ensures Holding(After(s, step), step.op, FsIndex(s, step)) == Holding(s, step.op, FsIndex(s, step))
  {
    hide Inv, Enabled, After, FsIndex, PlacesOK, ThreadsOK;
    FsStepHasEffect(s, step);
    RowIsOK(s, step.op);
    OwnPlacesApart(s, step.op, FsIndex(s, step));
  }

  lemma MoveConservesSiblings(s: State, step: Step, i: nat)
    requires Inv(s) && Enabled(s, step) && IsFsStep(step)
    requires i < |s.rows[step.op].targets| && i != FsIndex(s, step)
    ensures After(s, step).rows == s.rows
    ensures Holding(After(s, step), step.op, i) == Holding(s, step.op, i)
  {
    FsStepKeepsRows(s, step);
    assert RowOK(s, step.op);
    PlacesApart(s, step.op, i, step.op, FsIndex(s, step));
    FsStepIsLocal(s, step, Original(s.rows[step.op].targets[i]));
    FsStepIsLocal(s, step, Parking(s.rows[step.op].targets[i], step.op, i));
  }

  lemma StillStepConserves(s: State, step: Step, op: Id, i: nat)
    requires Enabled(s, step) && !IsFsStep(step) && !step.Write? && !step.Begin?
    requires op in s.rows && i < |s.rows[op].targets|
    ensures op in After(s, step).rows && |After(s, step).rows[op].targets| == |s.rows[op].targets|
    ensures Holding(After(s, step), op, i) == Holding(s, op, i)
  {
    TargetIsStatic(s, step, op, i);
    OtherStepsKeepFiles(s, step);
  }

  /** Nothing but the deletion of a committed target makes an object disappear or change. */
  lemma MovesConserve(s: State, step: Step, op: Id, i: nat)
    requires Inv(s) && Enabled(s, step) && HasSubject(step) && !step.Begin? && step.op == op && !step.Reap?
    requires op in s.rows && i < |s.rows[op].targets|
    ensures op in After(s, step).rows && |After(s, step).rows[op].targets| == |s.rows[op].targets|
    ensures Holding(After(s, step), op, i) == Holding(s, op, i)
  {
    if !IsFsStep(step) {
      StillStepConserves(s, step, op, i);
    } else if i == FsIndex(s, step) {
      MoveConservesItsTarget(s, step);
    } else {
      MoveConservesSiblings(s, step, i);
    }
  }

  ghost predicate PlaceOf(s: State, op: Id, p: Path)
    requires op in s.rows
  {
    exists i | 0 <= i < |s.rows[op].targets| :: p == Original(s.rows[op].targets[i]) || p == Parking(s.rows[op].targets[i], op, i)
  }

  /** Steps of an operation touch nothing outside its places. */
  lemma MovesStayInside(s: State, step: Step, op: Id, p: Path)
    requires Enabled(s, step) && HasSubject(step) && !step.Begin? && step.op == op
    requires op in s.rows && !PlaceOf(s, op, p)
    ensures SameAt(s, After(s, step), p)
  {
    if IsFsStep(step) {
      FsStepIsLocal(s, step, p);
    } else {
      OtherStepsKeepFiles(s, step);
    }
  }

  /** Steps of one operation that delete nothing. */
  ghost predicate OnlyMoves(steps: seq<Step>, op: Id) {
    forall k | 0 <= k < |steps| :: HasSubject(steps[k]) && steps[k].op == op && !steps[k].Begin? && !steps[k].Reap?
  }

  /** Everything a target stands for, and everything outside the operation's places, is the same
      in both states. */
  ghost predicate Conserved(a: State, b: State, op: Id) {
    && op in a.rows && op in b.rows && |a.rows[op].targets| == |b.rows[op].targets|
    && (forall i | 0 <= i < |a.rows[op].targets| ::
         b.rows[op].targets[i] == a.rows[op].targets[i].(receipt := b.rows[op].targets[i].receipt)
         && Holding(b, op, i) == Holding(a, op, i))
    && (forall p | !PlaceOf(a, op, p) :: SameAt(a, b, p))
  }

  lemma SamePlaceNames(a: State, b: State, op: Id, p: Path)
    requires Conserved(a, b, op)
    ensures PlaceOf(a, op, p) <==> PlaceOf(b, op, p)
  {
    forall i | 0 <= i < |a.rows[op].targets|
      ensures Original(b.rows[op].targets[i]) == Original(a.rows[op].targets[i])
      ensures Parking(b.rows[op].targets[i], op, i) == Parking(a.rows[op].targets[i], op, i)
    {
    }
  }

  lemma StepConserves(s: State, step: Step, op: Id)
    requires Inv(s) && Enabled(s, step) && HasSubject(step) && !step.Begin? && step.op == op && !step.Reap?
    ensures Conserved(s, After(s, step), op)
  {
    TargetsAreStatic(s, step, op);
    forall i | 0 <= i < |s.rows[op].targets| ensures Holding(After(s, step), op, i) == Holding(s, op, i) {
      MovesConserve(s, step, op, i);
    }
    forall p | !PlaceOf(s, op, p) ensures SameAt(s, After(s, step), p) {
      MovesStayInside(s, step, op, p);
    }
  }

  lemma ConservedIsTransitive(a: State, b: State, c: State, op: Id)
    requires Conserved(a, b, op) && Conserved(b, c, op)
    ensures Conserved(a, c, op)
  {
    forall p | !PlaceOf(a, op, p) ensures SameAt(a, c, p) {
      SamePlaceNames(a, b, op, p);
    }
  }

  lemma MovesKeepInv(states: seq<State>, steps: seq<Step>, op: Id, k: nat)
    requires Run(states, steps) && AllAlone(states, steps) && Inv(states[0]) && OnlyMoves(steps, op) && k < |states|
    ensures Inv(states[k])
  {
    hide Inv, Enabled, After, Alone;
    forall j | 0 <= j < |steps| ensures Careful(states[j], steps[j]) {
      OnlyPublicationsMatter(states[j], steps[j]);
    }
    RunKeepsInv(states, steps, k);
  }

  lemma {:induction false} RunConserves(states: seq<State>, steps: seq<Step>, op: Id, k: nat)
    requires Run(states, steps) && AllAlone(states, steps) && Inv(states[0]) && OnlyMoves(steps, op)
    requires op in states[0].rows && k < |states|
    ensures Conserved(states[0], states[k], op)
  {
    if k > 0 {
      RunConserves(states, steps, op, k - 1);
      MovesKeepInv(states, steps, op, k - 1);
      StepConserves(states[k - 1], steps[k - 1], op);
      ConservedIsTransitive(states[0], states[k - 1], states[k], op);
    }
  }

  /** Every target at its origin before and after, and nothing lost in between: the filesystem is
      exactly what it was. */
  lemma SameHomesSameFiles(a: State, b: State, op: Id)
    requires Conserved(a, b, op)
    requires forall i | 0 <= i < |a.rows[op].targets| :: AtOrigin(a, op, i)
    requires forall i | 0 <= i < |b.rows[op].targets| :: AtOrigin(b, op, i)
    ensures b.fs == a.fs
  {
    forall p ensures (p in a.fs <==> p in b.fs) && (p in a.fs ==> a.fs[p] == b.fs[p]) {
      if PlaceOf(a, op, p) {
        var i :| 0 <= i < |a.rows[op].targets| && (p == Original(a.rows[op].targets[i]) || p == Parking(a.rows[op].targets[i], op, i));
        assert AtOrigin(a, op, i) && AtOrigin(b, op, i);
        assert Holding(b, op, i) == Holding(a, op, i);
      } else {
        assert SameAt(a, b, p);
      }
    }
  }

  /** A run of moves that starts and ends with every target at its origin leaves the filesystem
      exactly as it was. */
  lemma RoundTripRestoresTheFilesystem(states: seq<State>, steps: seq<Step>, op: Id)
    requires Run(states, steps) && AllAlone(states, steps) && Inv(states[0]) && OnlyMoves(steps, op)
    requires op in states[0].rows
    requires forall i | 0 <= i < |states[0].rows[op].targets| :: AtOrigin(states[0], op, i)
    requires op in Last(states).rows
    requires forall i | 0 <= i < |Last(states).rows[op].targets| :: AtOrigin(Last(states), op, i)
    ensures Last(states).fs == states[0].fs
  {
    hide Enabled, After, Inv;
    RunConserves(states, steps, op, |states| - 1);
    SameHomesSameFiles(states[0], Last(states), op);
  }

  /** However an operation proceeds, deletions included, nothing outside its places changes. */
  lemma {:induction false} SegmentStaysInside(states: seq<State>, steps: seq<Step>, from: nat, k: nat, op: Id, p: Path)
    requires Run(states, steps) && from <= k < |states|
    requires forall j | from <= j < k :: HasSubject(steps[j]) && steps[j].op == op && !steps[j].Begin?
    requires op in states[from].rows && !PlaceOf(states[from], op, p)
    ensures op in states[k].rows && !PlaceOf(states[k], op, p) && SameAt(states[from], states[k], p)
  {
    if from < k {
      SegmentStaysInside(states, steps, from, k - 1, op, p);
      var s, step := states[k - 1], steps[k - 1];
      MovesStayInside(s, step, op, p);
      PlacesAreStatic(s, step, op, p);
    }
  }

  lemma PlacesAreStatic(s: State, step: Step, op: Id, p: Path)
    requires Enabled(s, step) && op in s.rows && !step.Begin?
    ensures op in After(s, step).rows && (PlaceOf(After(s, step), op, p) ==> PlaceOf(s, op, p))
  {
    TargetsAreStatic(s, step, op);
    var s' := After(s, step);
    if PlaceOf(s', op, p) {
      var i :| 0 <= i < |s'.rows[op].targets| && (p == Original(s'.rows[op].targets[i]) || p == Parking(s'.rows[op].targets[i], op, i));
      assert Original(s.rows[op].targets[i]) == Original(s'.rows[op].targets[i]);
      assert Parking(s.rows[op].targets[i], op, i) == Parking(s'.rows[op].targets[i], op, i);
    }
  }
}
