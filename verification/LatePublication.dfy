/** `begin` measures its targets before the transaction that publishes them. If another operation with
    one of these targets runs to its end in between, the publication is still accepted: nothing in
    that transaction looks at the files. The operation is then stranded: its target is nowhere, no
    rollback can ever end it, and every recovery that meets it fails. */
module LatePublication {

  import opened Wrappers
  import opened StoragePaths
  import opened StorageTree
  import opened MaintenanceModel
  import opened MaintenanceSafety
  import opened MaintenanceHistory
  import opened MaintenanceRuns
  import opened SharedJournal
  import opened HalfDeleted

  /** The original path of a target. */
  function Home(s: State, op: Id, i: nat): Path
    requires op in s.rows && i < |s.rows[op].targets|
  {
    Original(s.rows[op].targets[i])
  }

  /** An intent whose `i`-th target is at neither place, and nobody has it to give back. */
  ghost predicate Stranded(s: State, op: Id, i: nat) {
    && op in s.rows && i < |s.rows[op].targets| && s.rows[op].phase == Intent && Gone(s, op, i)
    && (forall o | o in s.rows :: TargetsOK(s.rows[o])) && DraftsWellFormed(s)
    && (forall o, j: nat | o in s.rows && j < |s.rows[o].targets| && Home(s, o, j) == Home(s, op, i) :: Unparked(s, o, j))
    && (forall w | Thread(op, w) in s.threads :: StopsAt(s.threads[Thread(op, w)].pc, i))
  }

  /** A staging or restoring thread that has not got past target `i`. */
  predicate StopsAt(pc: Pc, i: nat) {
    (pc.Staging? && pc.next <= i) || (pc.Renamed? && pc.at < i) || (pc.Restoring? && pc.rest > i) || (pc.PutBack? && pc.at > i)
  }

  // ---- whatever happens afterwards ------------------------------------------------------------

  lemma StrandedThread(s: State, op: Id, i: nat, w: Worker)
    requires Stranded(s, op, i) && Thread(op, w) in s.threads
    ensures StopsAt(s.threads[Thread(op, w)].pc, i)
  {
    hide TargetsOK, DraftsWellFormed, Unparked, Gone, Home;
  }

  /** A thread that has not got past the missing target cannot save a phase or commit. */
  lemma OnlyStoppedSteps(s: State, step: Step, i: nat)
    requires Enabled(s, step) && HasSubject(step) && !step.Begin? && !IsClaim(step) && At(s, step.op, step.who)
    requires Stranded(s, step.op, i) && StopsAt(PcOf(s, step.op, step.who), i)
    ensures step.Park? || step.SkipPark? || step.SavePark? || step.PutTargetBack? || step.SkipPutBack? || step.SaveRestored? || step.Abandon?
  {
    hide TargetsOK, DraftsWellFormed, Matches, CommitAccepts, Unparked, Home;
  }

  /** Nor can it move or skip that target. */
  lemma NotTheMissingOne(s: State, step: Step, i: nat)
    requires Enabled(s, step) && HasSubject(step) && At(s, step.op, step.who) && Stranded(s, step.op, i)
    ensures step.Park? || step.SkipPark? ==> PcOf(s, step.op, step.who).Staging? && PcOf(s, step.op, step.who).next != i
    ensures step.PutTargetBack? || step.SkipPutBack? ==> PcOf(s, step.op, step.who).Restoring? && PcOf(s, step.op, step.who).rest != i + 1
  {
    hide TargetsOK, DraftsWellFormed, Matches, Unparked, Home, Original, Parking;
  }

  lemma ClaimOfAStrandedOne(s: State, step: Step, i: nat)
    requires Enabled(s, step) && IsClaim(step) && Stranded(s, step.op, i) && Thread(step.op, step.who) in After(s, step).threads
    ensures StopsAt(After(s, step).threads[Thread(step.op, step.who)].pc, i)
  {
    hide CanClaim, TargetsOK, DraftsWellFormed, Receipts, Unparked, Home, Gone;
  }

  lemma StoppedGoesOn(s: State, step: Step, i: nat)
    requires Enabled(s, step) && HasSubject(step) && !step.Begin? && !IsClaim(step) && At(s, step.op, step.who)
    requires Stranded(s, step.op, i) && StopsAt(PcOf(s, step.op, step.who), i)
    requires Thread(step.op, step.who) in After(s, step).threads
    ensures StopsAt(After(s, step).threads[Thread(step.op, step.who)].pc, i)
  {
    OnlyStoppedSteps(s, step, i);
    NotTheMissingOne(s, step, i);
    hide Stranded, Matches, Receipts, Receipted, Renaming, Original, Parking;
  }

  lemma IntentRow(s: State, op: Id, i: nat)
    requires Stranded(s, op, i)
    ensures op in s.rows && s.rows[op].phase == Intent
  {
  }

  lemma StrandedKeepsPhase(s: State, step: Step, i: nat)
    requires Enabled(s, step) && HasSubject(step) && !step.Begin? && Stranded(s, step.op, i)
    ensures PhaseAfter(step, Intent) == Intent
  {
    hide Enabled, After, Stranded;
    StepHasEffect(s, step);
    if !IsClaim(step) {
      StrandedThread(s, step.op, i, step.who);
      OnlyStoppedSteps(s, step, i);
    }
  }

  lemma RowStaysIntent(s: State, step: Step, op: Id, i: nat)
    requires Enabled(s, step) && Stranded(s, op, i)
    ensures op in After(s, step).rows && After(s, step).rows[op].phase == Intent
    ensures HasSubject(step) && step.op == op ==> !step.Begin?
  {
    hide Enabled, After, Stranded;
    IntentRow(s, op, i);
    if HasSubject(step) && step.op == op {
      PhaseOfSubject(s, step);
      StrandedKeepsPhase(s, step, i);
    } else {
      OthersKeepRow(s, step, op);
    }
  }

  lemma ThreadsStop(s: State, step: Step, op: Id, i: nat, w: Worker)
    requires Enabled(s, step) && Stranded(s, op, i) && Thread(op, w) in After(s, step).threads
    ensures StopsAt(After(s, step).threads[Thread(op, w)].pc, i)
  {
    hide Enabled, After, Stranded;
    if HasSubject(step) && step.op == op && step.who == w {
      IntentRow(s, op, i);
      PhaseOfSubject(s, step);
      StepHasEffect(s, step);
      if IsClaim(step) {
        ClaimOfAStrandedOne(s, step, i);
      } else {
        StrandedThread(s, op, i, w);
        StoppedGoesOn(s, step, i);
      }
    } else {
      OtherThreadsStay(s, step, Thread(op, w));
      StrandedThread(s, op, i, w);
    }
  }

  lemma FsPlaces(s: State, step: Step)
    requires Enabled(s, step) && IsFsStep(step)
    ensures step.op in s.rows && FsIndex(s, step) < |s.rows[step.op].targets|
    ensures !step.PutTargetBack? ==> After(s, step).fs.Keys <= s.fs.Keys + {Parking(s.rows[step.op].targets[FsIndex(s, step)], step.op, FsIndex(s, step))}
    ensures step.PutTargetBack? ==> After(s, step).fs.Keys <= s.fs.Keys + {Home(s, step.op, FsIndex(s, step))}
    ensures step.PutTargetBack? ==> !Unparked(s, step.op, FsIndex(s, step))
    ensures step.Park? ==> Home(s, step.op, FsIndex(s, step)) in s.fs
    ensures step.Reap? ==> After(s, step).fs.Keys <= s.fs.Keys
  {
    hide Enabled, After, FsIndex, Matches;
    FsStepHasEffect(s, step);
  }

  lemma HomeStaysEmpty(s: State, step: Step, op: Id, i: nat)
    requires Enabled(s, step) && Stranded(s, op, i)
    ensures Home(s, op, i) !in After(s, step).fs
  {
    if IsFsStep(step) {
      FsPlaces(s, step);
      hide Enabled, After;
      var k := FsIndex(s, step);
      OriginalIsNoParking(s.rows[op].targets[i], s.rows[step.op].targets[k], step.op, k);
    } else if step.Write? {
      WritesAvoid(s, step, op, i);
    } else {
      OtherStepsKeepFiles(s, step);
    }
  }

  /** Nobody parks anything under a name that belongs to this path. */
  lemma StaysUnparked(s: State, step: Step, op: Id, i: nat, o: Id, j: nat)
    requires Enabled(s, step) && Stranded(s, op, i)
    requires o in s.rows && j < |s.rows[o].targets| && Home(s, o, j) == Home(s, op, i)
    ensures Parking(s.rows[o].targets[j], o, j) !in After(s, step).fs
  {
    assert Unparked(s, o, j);
    if IsFsStep(step) {
      FsPlaces(s, step);
      hide Enabled, After;
      var k := FsIndex(s, step);
      var t, u := s.rows[o].targets[j], s.rows[step.op].targets[k];
      ParkingPlacesAreUnique(t.root, t.name, o, j, u.root, u.name, step.op, k);
      ParkingPlacesAreUnique(u.root, u.name, step.op, k, t.root, t.name, o, j);
    } else if step.Write? {
      WritesAvoid(s, step, o, j);
    } else {
      OtherStepsKeepFiles(s, step);
    }
  }

  lemma NewRowIsElsewhere(s: State, step: Step, op: Id, i: nat, j: nat)
    requires Enabled(s, step) && step.Begin? && Stranded(s, op, i) && j < |step.targets|
    ensures Original(step.targets[j]) != Home(s, op, i)
  {
    assert s.rows[op].targets[i] in s.rows[op].targets;
    NobodyHolds(s, step, step.targets[j], op);
  }

  lemma LaterUnparked(s: State, step: Step, op: Id, i: nat, o: Id, j: nat)
    requires Enabled(s, step) && Stranded(s, op, i) && op in After(s, step).rows && i < |After(s, step).rows[op].targets|
    requires Home(After(s, step), op, i) == Home(s, op, i)
    requires o in After(s, step).rows && j < |After(s, step).rows[o].targets| && Home(After(s, step), o, j) == Home(s, op, i)
    ensures Unparked(After(s, step), o, j)
  {
    if step.Begin? && step.op == o {
      BeginAfter(s, step);
      hide Enabled, After;
      NewRowIsElsewhere(s, step, op, i, j);
      assert false;
    } else {
      OldRow(s, step, o);
      hide Enabled, After;
      TargetsAreStatic(s, step, o);
      StaysUnparked(s, step, op, i, o, j);
    }
  }

  lemma StepKeepsStranded(s: State, step: Step, op: Id, i: nat)
    requires Enabled(s, step) && Stranded(s, op, i)
    ensures Stranded(After(s, step), op, i) && Home(After(s, step), op, i) == Home(s, op, i)
  {
    hide Enabled, After, TargetsOK, DraftsWellFormed;
    var s' := After(s, step);
    RowStaysIntent(s, step, op, i);
    TargetsAreStatic(s, step, op);
    HomeStaysEmpty(s, step, op, i);
    StaysUnparked(s, step, op, i, op, i);
    DraftsStayWellFormed(s, step);
    forall o | o in s'.rows ensures TargetsOK(s'.rows[o]) {
      RootsStayProper(s, step, o);
    }
    forall o, j: nat | o in s'.rows && j < |s'.rows[o].targets| && Home(s', o, j) == Home(s', op, i) ensures Unparked(s', o, j) {
      LaterUnparked(s, step, op, i, o, j);
    }
    forall w | Thread(op, w) in s'.threads ensures StopsAt(s'.threads[Thread(op, w)].pc, i) {
      ThreadsStop(s, step, op, i, w);
    }
  }

  /** Neither end is ever reached, and the check of whoever comes to the missing target fails. */
  lemma StrandedRefuses(s: State, op: Id, i: nat)
    requires Stranded(s, op, i)
    ensures forall w, until :: !Enabled(s, SaveRolledBack(op, w, until)) && !Enabled(s, SaveDetached(op, w, until))
    ensures forall w, until | At(s, op, w) && (PcOf(s, op, w) == Staging(i) || PcOf(s, op, w) == Restoring(i + 1)) ::
              !Enabled(s, NextStep(s, op, w, until))
  {
    hide TargetsOK, DraftsWellFormed;
  }

  /** For ever, whatever anyone does: the intent stays, its path stays claimed by it in the conflict
      test, and no staging or rollback of it, so no recovery, gets past the missing target. */
  lemma {:induction false} StrandedForEver(states: seq<State>, steps: seq<Step>, from: nat, k: nat, op: Id, i: nat)
    requires Run(states, steps) && from <= k < |states| && Stranded(states[from], op, i)
    ensures Stranded(states[k], op, i) && Home(states[k], op, i) == Home(states[from], op, i)
    ensures forall w, until :: !Enabled(states[k], SaveRolledBack(op, w, until)) && !Enabled(states[k], SaveDetached(op, w, until))
    ensures forall w, until | At(states[k], op, w) && (PcOf(states[k], op, w) == Staging(i) || PcOf(states[k], op, w) == Restoring(i + 1)) ::
              !Enabled(states[k], NextStep(states[k], op, w, until))
  {
    hide Enabled, After, Stranded, NextStep;
    if from < k {
      StrandedForEver(states, steps, from, k - 1, op, i);
      StepKeepsStranded(states[k - 1], steps[k - 1], op, i);
    }
    StrandedRefuses(states[k], op, i);
  }

  // ---- how it comes about --------------------------------------------------------------------

  lemma FinishedIsUnparked(s: State, o: Id, j: nat)
    requires Inv(s) && o in s.rows && !Unfinished(s.rows[o]) && j < |s.rows[o].targets|
    ensures Unparked(s, o, j)
  {
    RowIsOK(s, o);
  }

  /** A publication with a target that has departed is stranded from the start. */
  lemma LatePublicationIsStranded(s: State, step: Step, i: nat)
    requires Inv(s) && Enabled(s, step) && step.Begin? && i < |step.targets| && Original(step.targets[i]) !in s.fs
    ensures Stranded(After(s, step), step.op, i)
  {
    var s', op := After(s, step), step.op;
    DraftIsOK(s, op, step.who);
    BeginAfter(s, step);
    NobodyIsInside(s, step);
    hide Enabled, After, Matches;
    BeginFiles(s, step);
    forall o | o in s'.rows ensures TargetsOK(s'.rows[o]) {
      if o != op {
        RowTargetsAreOK(s, o);
      }
    }
    AllDraftsAreWellFormed(s);
    DraftsStayWellFormed(s, step);
    forall o, j: nat | o in s'.rows && j < |s'.rows[o].targets| && Home(s', o, j) == Home(s', op, i) ensures Unparked(s', o, j) {
      if o == op {
        assert Parking(step.targets[j], op, j) !in s.fs;
      } else {
        OnlyFinishedOnesShare(s, step, i, o, j);
        FinishedIsUnparked(s, o, j);
        SameParkedness(s, s', o, j);
      }
    }
  }

  lemma OnlyFinishedOnesShare(s: State, step: Step, i: nat, o: Id, j: nat)
    requires Enabled(s, step) && step.Begin? && i < |step.targets|
    requires o in s.rows && j < |s.rows[o].targets| && Home(s, o, j) == Original(step.targets[i])
    ensures !Unfinished(s.rows[o])
  {
    hide Enabled, NoConflict;
    var t := s.rows[o].targets[j];
    assert t in s.rows[o].targets;
    if Unfinished(s.rows[o]) {
      NobodyHolds(s, step, step.targets[i], o);
    }
  }

  lemma SameParkedness(s: State, s': State, o: Id, j: nat)
    requires o in s.rows && o in s'.rows && s'.rows[o] == s.rows[o] && s'.fs == s.fs && j < |s.rows[o].targets|
    ensures Unparked(s, o, j) <==> Unparked(s', o, j)
  {
  }

  lemma BeginFiles(s: State, step: Step)
    requires Enabled(s, step) && step.Begin?
    ensures After(s, step).fs == s.fs
  {
  }

  lemma NobodyIsInside(s: State, step: Step)
    requires Inv(s) && Enabled(s, step) && step.Begin?
    ensures forall w :: Thread(step.op, w) !in After(s, step).threads
    ensures step.targets == DraftOf(s, step.op, step.who) && Thread(step.op, step.who) in s.drafts
  {
    assert forall w :: Thread(step.op, w).operation == step.op;
  }

  lemma AllDraftsAreWellFormed(s: State)
    requires Inv(s)
    ensures DraftsWellFormed(s)
  {
    forall t | t in s.drafts && t.operation !in s.rows ensures WellFormed(s.drafts[t]) {
      DraftIsOK(s, t.operation, t.worker);
    }
  }

  /** In a run that was careful so far, exactly the overtaken publications strand their operation: any
      other one, undisturbed, keeps the invariant. */
  lemma OvertakenIsStranded(states: seq<State>, steps: seq<Step>, k: nat, m: nat, i: nat)
    requires Run(states, steps) && Fresh(states[0]) && k < |steps| && steps[k].Begin?
    requires forall j | 0 <= j < k :: Careful(states[j], steps[j])
    requires UndisturbedAt(states, steps, k) && MeasuredAt(states, steps, m, k, steps[k].op, steps[k].who, i)
    ensures TimelyAt(states, steps, k) <==> Inv(states[k + 1])
    ensures Overtaken(states, steps, m, k, Original(steps[m].target)) <==> Stranded(states[k + 1], steps[k].op, i)
  {
    hide Inv, Enabled, After, Careful, Fresh, Stranded, Overtaken, UndisturbedAt, TimelyAt, Stands, Written, Current;
    CarefulSoFar(states, steps, k);
    NothingWasWritten(states, steps, k, m, i);
    PublicationIsCurrentIff(states, steps, k);
    PublicationKeepsInvIffCurrent(states[k], steps[k]);
    PublishedTargetStandsIff(states, steps, k, m, i);
    MeasuredStands(states[m], steps[m]);
    WhereaboutsOf(states, steps, m, k, steps[m].target);
    if Overtaken(states, steps, m, k, Original(steps[m].target)) {
      DepartedIsEmpty(states[k], Original(steps[m].target));
      LatePublicationIsStranded(states[k], steps[k], i);
    } else {
      StandingIsNotStranded(states[k], steps[k], i);
    }
  }

  lemma CarefulSoFar(states: seq<State>, steps: seq<Step>, k: nat)
    requires Run(states, steps) && Fresh(states[0]) && k < |states|
    requires forall j | 0 <= j < k :: Careful(states[j], steps[j])
    ensures forall j | 0 <= j <= k :: Inv(states[j])
    ensures forall j | 0 <= j < k :: Current(states[j], steps[j])
    ensures states[0].drafts == map[]
  {
    hide Inv, Enabled, After, Alone, Current, Fresh;
    FreshIsSafe(states[0]);
    FreshHasNoDrafts(states[0]);
    var before, done := states[..k + 1], steps[..k];
    forall j | 0 <= j <= k ensures Inv(states[j]) {
      RunKeepsInv(before, done, j);
      assert before[j] == states[j];
    }
    forall j | 0 <= j < k ensures Current(states[j], steps[j]) {
      assert Careful(states[j], steps[j]);
    }
  }

  lemma NothingWasWritten(states: seq<State>, steps: seq<Step>, k: nat, m: nat, i: nat)
    requires |states| == |steps| + 1 && k < |steps| && steps[k].Begin?
    requires UndisturbedAt(states, steps, k) && MeasuredAt(states, steps, m, k, steps[k].op, steps[k].who, i)
    ensures !Written(steps, m, k, Original(steps[m].target))
  {
  }

  lemma DepartedIsEmpty(s: State, p: Path)
    requires Departed(s, p)
    ensures p !in s.fs
  {
  }

  lemma StandingIsNotStranded(s: State, step: Step, i: nat)
    requires Enabled(s, step) && step.Begin? && i < |step.targets| && Stands(s, step.targets[i])
    ensures !Stranded(After(s, step), step.op, i)
  {
    BeginAfter(s, step);
    BeginFiles(s, step);
    hide After;
  }

  // ---- a run that does it ---------------------------------------------------------------------

  lemma MeasureKeepsLive(s: State, step: Step)
    requires Enabled(s, step) && step.Measure?
    ensures After(s, step).live == s.live
  {
    hide TargetIsSound;
  }

  lemma OwnStepKeepsDraft(s: State, step: Step, op: Id, who: Worker, t: Thread)
    requires Enabled(s, step) && IsOwn(step, op, who) && t != Thread(op, who)
    ensures t in s.drafts <==> t in After(s, step).drafts
    ensures t in s.drafts ==> After(s, step).drafts[t] == s.drafts[t]
    ensures After(s, step).live == s.live
  {
    hide Enabled, After;
    StepHasEffect(s, step);
    if step.Measure? {
      MeasureKeepsLive(s, step);
    }
  }

  lemma {:induction false} OwnRunKeepsDraft(states: seq<State>, steps: seq<Step>, k: nat, op: Id, who: Worker, t: Thread)
    requires Run(states, steps) && OwnSteps(steps, op, who) && t != Thread(op, who) && k < |states|
    ensures t in states[0].drafts <==> t in states[k].drafts
    ensures t in states[0].drafts ==> states[k].drafts[t] == states[0].drafts[t]
    ensures states[k].live == states[0].live
  {
    hide Enabled, After;
    if k > 0 {
      OwnRunKeepsDraft(states, steps, k - 1, op, who, t);
      OwnStepKeepsDraft(states[k - 1], steps[k - 1], op, who, t);
    }
  }

  lemma CommitAndClaim(s: State, op: Id, a: Worker, until: int) returns (commit: Step)
    requires Inv(s) && At(s, op, a) && PcOf(s, op, a) == Staged
    ensures commit == Commit(op, a, s.rows[op].kind, s.rows[op].subject) && Enabled(s, commit) && Careful(s, commit)
    ensures var s' := After(s, commit);
            && Inv(s') && s'.rows.Keys == s.rows.Keys && Enabled(s', BeginReap(op, a, until)) && Careful(s', BeginReap(op, a, until))
            && var s2 := After(s', BeginReap(op, a, until));
            && Inv(s2) && s2.rows.Keys == s.rows.Keys && s2.rows[op].targets == s.rows[op].targets && At(s2, op, a) && PcOf(s2, op, a) == Reaping(0)
  {
    hide Inv, InTrash, TargetsOK, Matches, Reserved, NoConflict;
    commit := Commit(op, a, s.rows[op].kind, s.rows[op].subject);
    StagedFacts(s, op, a);
    StepKeepsInv(s, commit);
    var s' := After(s, commit);
    forall w ensures Thread(op, w) !in s'.threads {
      assert Thread(op, w) in s'.threads ==> Thread(op, w) in s.threads;
    }
    StepKeepsInv(s', BeginReap(op, a, until));
  }

  lemma ReapedAll(s: State, op: Id, a: Worker)
    requires Inv(s) && AtEnd(s, op, a) && PcOf(s, op, a).Reaping?
    ensures forall i | 0 <= i < |s.rows[op].targets| :: Gone(s, op, i)
    ensures MaySave(s, op, a) && CopyOf(s, op, a) == Receipts(s.rows[op].targets)
  {
    OnlyThread(s, op, a, a);
    hide Inv;
  }

  lemma LastReap(s: State, op: Id, a: Worker, until: int)
    requires Inv(s) && AtEnd(s, op, a) && PcOf(s, op, a).Reaping?
    ensures Enabled(s, SaveFinalized(op, a, until)) && Inv(After(s, SaveFinalized(op, a, until)))
    ensures var s' := After(s, SaveFinalized(op, a, until));
            && s'.rows.Keys == s.rows.Keys && s'.fs == s.fs && s'.rows[op].phase == Finalized && s'.rows[op].targets == s.rows[op].targets
  {
    hide Inv, Matches, Reserved, NoConflict, CanClaim, Gone, Receipts, Receipted;
    ReapedAll(s, op, a);
    SaveMarksNone(s.rows[op].targets);
    EffectIsCareful(s, SaveFinalized(op, a, until));
    StepKeepsInv(s, SaveFinalized(op, a, until));
  }

  /** A whole request, from its measurements to its end: its targets are gone. */
  lemma WholeRequest(s: State, s0: State, op: Id, a: Worker, targets: seq<Target>, until: int) returns (states: seq<State>, steps: seq<Step>)
    requires Drafted(s, s0, op, a, targets, 0)
    ensures Run(states, steps) && Assumed(states, steps) && states[0] == s && OwnSteps(steps, op, a)
    ensures var e := Last(states);
            && Inv(e) && e.rows.Keys == {op} && e.rows[op].phase == Finalized
            && SameTargets(targets, e.rows[op].targets) && forall i | 0 <= i < |e.rows[op].targets| :: Gone(e, op, i)
  {
    hide Inv, Enabled, After, Careful, Drafted, Gone;
    states, steps := StagedIsReachable(s, s0, op, a, targets, until);
    var commit := CommitAndClaim(Last(states), op, a, until);
    states, steps := Carefully(states, steps, commit);
    states, steps := Carefully(states, steps, BeginReap(op, a, until));
    var rest, effects := EveryThreadReachesItsEnd(Last(states), op, a, until);
    EffectsAreCareful(rest, effects, op, a);
    states, steps := CarefulRun(states, steps, rest, effects);
    ReapedAll(Last(states), op, a);
    LastReap(Last(states), op, a, until);
    EffectIsCareful(Last(states), SaveFinalized(op, a, until));
    StillGone(Last(states), After(Last(states), SaveFinalized(op, a, until)), op);
    states, steps := Carefully(states, steps, SaveFinalized(op, a, until));
  }

  lemma StillGone(s: State, s': State, op: Id)
    requires op in s.rows && op in s'.rows && s'.fs == s.fs && s'.rows[op].targets == s.rows[op].targets
    requires forall i | 0 <= i < |s.rows[op].targets| :: Gone(s, op, i)
    ensures forall i | 0 <= i < |s'.rows[op].targets| :: Gone(s', op, i)
  {
    forall i | 0 <= i < |s'.rows[op].targets| ensures Gone(s', op, i) {
      assert Gone(s, op, i);
    }
  }

  lemma NothingUnfinished(e: State, op: Id, targets: seq<Target>)
    requires Inv(e) && e.rows.Keys == {op} && e.rows[op].phase == Finalized
    ensures NoConflict(e, targets)
  {
    assert ClaimsOK(e);
  }

  lemma SecondDraft(s: State, s0: State, a: Id, b: Id, who: Worker, other: Worker, targets: seq<Target>)
    requires Drafted(s, s0, b, other, targets, |targets|) && TargetsAreSound(s0, a, targets) && who.owner.process in s0.live
    requires Thread(a, who) !in s.drafts
    ensures Drafted(s, s0, a, who, targets, 0)
  {
    hide Inv, TargetsAreSound;
  }

  lemma NoOtherDraft(states: seq<State>, steps: seq<Step>, op: Id, who: Worker, t: Thread)
    requires Run(states, steps) && states[0].drafts == map[] && t != Thread(op, who)
    requires forall k | 0 <= k < |steps| :: steps[k].Measure? && steps[k].op == op && steps[k].who == who
    ensures t !in Last(states).drafts
  {
    hide Enabled, After;
    assert OwnSteps(steps, op, who);
    OwnRunKeepsDraft(states, steps, |steps|, op, who, t);
  }

  lemma LateBegin(e: State, a: Id, b: Id, other: Worker, targets: seq<Target>, until: int)
    requires Inv(e) && e.rows.Keys == {a} && a != b && e.rows[a].phase == Finalized && other.owner.process in e.live
    requires SameTargets(targets, e.rows[a].targets) && forall i | 0 <= i < |e.rows[a].targets| :: Gone(e, a, i)
    requires targets != [] && Thread(b, other) in e.drafts && e.drafts[Thread(b, other)] == targets
    ensures Enabled(e, Begin(b, other, "", "", targets, until)) && Alone(e, Begin(b, other, "", "", targets, until))
    ensures forall i | 0 <= i < |targets| :: Stranded(After(e, Begin(b, other, "", "", targets, until)), b, i)
  {
    hide Inv, Stranded;
    NothingUnfinished(e, a, targets);
    var step := Begin(b, other, "", "", targets, until);
    NotAClaim(e, step);
    forall i | 0 <= i < |targets| ensures Stranded(After(e, step), b, i) {
      assert Gone(e, a, i);
      LatePublicationIsStranded(e, step, i);
    }
  }

  /** Two requests for the same targets, from any empty journal, every claim made alone and nobody else
      writing anything: the second one measures, the first one measures, publishes, stages, commits and
      finalizes, and the second one publishes. */
  lemma SecondRequestIsStranded(s: State, a: Id, b: Id, first: Worker, second: Worker, targets: seq<Target>, until: int)
      returns (states: seq<State>, steps: seq<Step>)
    requires Fresh(s) && first.owner.process in s.live && second.owner.process in s.live && a != b
    requires TargetsAreSound(s, a, targets) && TargetsAreSound(s, b, targets)
    ensures Run(states, steps) && AllAlone(states, steps) && states[0] == s && forall k | 0 <= k < |steps| :: !steps[k].Write?
    ensures forall i | 0 <= i < |targets| :: Stranded(Last(states), b, i)
  {
    hide Inv, Enabled, After, Alone, Fresh, TargetsAreSound, Drafted, Stranded;
    NothingDrafted(s, b, second, targets);
    var opening, measures := MeasuringAll(s, s, b, second, targets, 0);
    var drafted := Last(opening);
    FreshHasNoDrafts(s);
    NoOtherDraft(opening, measures, b, second, Thread(a, first));
    SecondDraft(drafted, s, a, b, first, second, targets);
    var rest, request := WholeRequest(drafted, s, a, first, targets, until);
    OwnRunKeepsDraft(rest, request, |request|, a, first, Thread(b, second));
    DraftedStands(drafted, s, b, second, targets);
    var e := Last(rest);
    var late := Begin(b, second, "", "", targets, until);
    LateBegin(e, a, b, second, targets, until);
    Joined(opening, measures, rest, request);
    var before, done := opening + rest[1..], measures + request;
    Joined(before, done, [e, After(e, late)], [late]);
    states, steps := before + [e, After(e, late)][1..], done + [late];
    forall k | 0 <= k < |steps| ensures Alone(states[k], steps[k]) && !steps[k].Write? {
      if k < |measures| {
        assert states[k] == before[k] == opening[k] && steps[k] == measures[k];
        assert Careful(opening[k], measures[k]);
      } else if k < |done| {
        assert states[k] == before[k] == rest[k - |measures|] && steps[k] == request[k - |measures|];
        assert Careful(rest[k - |measures|], request[k - |measures|]) && IsOwn(request[k - |measures|], a, first);
      } else {
        assert steps[k] == late && states[k] == e;
      }
    }
  }

  /** One process, one file, two requests: the second request's operation is an intent for ever. */
  lemma ItStrands() returns (states: seq<State>, steps: seq<Step>)
    ensures Run(states, steps) && AllAlone(states, steps) && states[0] == Example() && forall k | 0 <= k < |steps| :: !steps[k].Write?
    ensures Stranded(Last(states), 1, 0)
  {
    var target := Target(Path("", [Named("data")]), Named("job"), 7, 3, 1, Planned);
    var owner := Owner(0, Process(0, 0));
    OwnPlaceDiffers(target, 0);
    OwnPlaceDiffers(target, 1);
    assert TargetIsSound(Example(), target, 0, 0) && TargetIsSound(Example(), target, 1, 0);
    states, steps := SecondRequestIsStranded(Example(), 0, 1, Worker(owner, 0), Worker(owner, 1), [target], 60);
  }

  lemma OwnPlaceDiffers(t: Target, op: Id)
    requires ProperRoot(t.root)
    ensures Parking(t, op, 0) != Original(t)
  {
    OriginalIsNoParking(t, t, op, 0);
  }
}
