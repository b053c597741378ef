/** Every step keeps the journal's invariant; consequences for every run. */
module MaintenanceSafety {

  import opened Wrappers
  import opened StoragePaths
  import opened StorageTree
  import opened MaintenanceModel

  // ---- places of different targets do not interfere -----------------------------------------

  lemma PlacesApart(s: State, a: Id, i: nat, b: Id, j: nat)
    requires a in s.rows && b in s.rows && i < |s.rows[a].targets| && j < |s.rows[b].targets|
    requires TargetsOK(s.rows[a]) && TargetsOK(s.rows[b])
    requires a == b ==> i != j
    ensures a == b || (Unfinished(s.rows[a]) && Unfinished(s.rows[b]) && SubtreesDisjoint(s)) ==>
              Original(s.rows[a].targets[i]) != Original(s.rows[b].targets[j])
    ensures Parking(s.rows[a].targets[i], a, i) != Parking(s.rows[b].targets[j], b, j)
    ensures Parking(s.rows[a].targets[i], a, i) != Original(s.rows[b].targets[j])
    ensures Original(s.rows[a].targets[i]) != Parking(s.rows[b].targets[j], b, j)
  {
    var t, u := s.rows[a].targets[i], s.rows[b].targets[j];
    ParkingPlacesAreUnique(t.root, t.name, a, i, u.root, u.name, b, j);
    ParkingPlacesAreUnique(u.root, u.name, b, j, t.root, t.name, a, i);
    OverlapIsContainment(Original(t), Original(t));
  }

  lemma OwnPlacesApart(s: State, a: Id, i: nat)
    requires a in s.rows && i < |s.rows[a].targets| && TargetsOK(s.rows[a])
    ensures Parking(s.rows[a].targets[i], a, i) != Original(s.rows[a].targets[i])
  {
    var t := s.rows[a].targets[i];
    ParkingPlacesAreUnique(t.root, t.name, a, i, t.root, t.name, a, i);
  }

  /** The same targets in the same places, with possibly different receipts. */
  predicate SameTargets(a: seq<Target>, b: seq<Target>) {
    |a| == |b| && forall i | 0 <= i < |a| :: b[i] == a[i].(receipt := b[i].receipt)
  }

  predicate SameAt(s: State, s': State, p: Path) {
    (p in s.fs <==> p in s'.fs) && (p in s.fs ==> s.fs[p] == s'.fs[p])
  }

  ghost predicate SamePlaces(s: State, s': State, op: Id)
    requires op in s.rows
  {
    forall i | 0 <= i < |s.rows[op].targets| ::
      SameAt(s, s', Original(s.rows[op].targets[i])) && SameAt(s, s', Parking(s.rows[op].targets[i], op, i))
  }

  ghost predicate SameParking(s: State, s': State, op: Id)
    requires op in s.rows
  {
    forall i | 0 <= i < |s.rows[op].targets| :: SameAt(s, s', Parking(s.rows[op].targets[i], op, i))
  }

  lemma PlacesFrame(s: State, s': State, op: Id)
    requires op in s.rows && op in s'.rows && s.rows[op] == s'.rows[op] && Unfinished(s.rows[op]) && SamePlaces(s, s', op)
    ensures PlacesOK(s, op) ==> PlacesOK(s', op)
    ensures forall pc :: PcOK(s, op, pc) ==> PcOK(s', op, pc)
  {
    forall i | 0 <= i < |s.rows[op].targets|
      ensures (AtOrigin(s, op, i) <==> AtOrigin(s', op, i)) && (InTrash(s, op, i) <==> InTrash(s', op, i)) && (Gone(s, op, i) <==> Gone(s', op, i))
    {
      assert SameAt(s, s', Original(s.rows[op].targets[i])) && SameAt(s, s', Parking(s.rows[op].targets[i], op, i));
    }
  }

  lemma FinishedFrame(s: State, s': State, op: Id)
    requires op in s.rows && op in s'.rows && s.rows[op] == s'.rows[op] && !Unfinished(s.rows[op]) && SameParking(s, s', op)
    requires PlacesOK(s, op)
    ensures PlacesOK(s', op)
    ensures forall pc :: !PcOK(s, op, pc)
  {
    forall i | 0 <= i < |s.rows[op].targets| ensures Unparked(s', op, i) {
      assert SameAt(s, s', Parking(s.rows[op].targets[i], op, i)) && Unparked(s, op, i);
    }
  }

  lemma RowFrame(s: State, s': State, op: Id)
    requires op in s.rows && op in s'.rows && s.rows[op] == s'.rows[op] && RowOK(s, op)
    requires op in s.domain <==> op in s'.domain
    requires SameParking(s, s', op) && (Unfinished(s.rows[op]) ==> SamePlaces(s, s', op))
    requires forall q | Thread(op, q) in s'.threads ::
               Thread(op, q) in s.threads && s.threads[Thread(op, q)] == s'.threads[Thread(op, q)]
               && (q.owner.process in s.live ==> q.owner.process in s'.live)
    ensures RowOK(s', op)
  {
    hide PcOK, PlacesOK, TargetsOK, SamePlaces, SameParking;
    if Unfinished(s.rows[op]) {
      PlacesFrame(s, s', op);
    } else {
      FinishedFrame(s, s', op);
    }
  }

  // ---- steps ---------------------------------------------------------------------------------

  predicate IsFsStep(step: Step) { step.Park? || step.PutTargetBack? || step.Reap? }

  /** Steps about the row of one operation; a measurement is not yet about one. */
  predicate HasSubject(step: Step) {
    !step.Start? && !step.Crash? && !step.Write? && !step.Tick? && !step.Measure? && !step.Discard?
  }

  predicate WritesRow(step: Step) {
    step.SavePark? || step.SaveDetached? || step.Commit? || step.SaveRestored? || step.SaveRolledBack? || step.SaveReaped? || step.SaveFinalized?
  }

  /** The last step of a thread. */
  predicate IsLast(step: Step) { step.Commit? || step.SaveRolledBack? || step.SaveFinalized? || step.Abandon? }

  function PhaseAfter(step: Step, phase: Phase): Phase {
    if step.SaveDetached? then Detached
    else if step.Commit? then Committed
    else if step.SaveRolledBack? then RolledBack
    else if step.SaveFinalized? then Finalized
    else phase
  }

  /** What a step can do to the tables and to the threads; where the files are concerned, only which
      steps touch them. */
  ghost predicate Effect(s: State, step: Step, s': State) {
    && (!IsFsStep(step) && !step.Write? ==> s'.fs == s.fs)
    && (!HasSubject(step) ==> s'.rows == s.rows && s'.claims == s.claims && s'.domain == s.domain)
    && (!HasSubject(step) ==> Uninvolved(s, step, s'))
    && (step.Begin? ==>
          step.op !in s.rows
          && s' == Published(s, step.op, step.who, Row(step.kind, step.subject, Intent, step.targets, step.who.owner, step.until)))
    && (IsClaim(step) ==> Entered(s, step, s'))
    && (HasSubject(step) && !step.Begin? && !IsClaim(step) ==> Worked(s, step, s'))
  }

  /** Steps without a subject. */
  ghost predicate Uninvolved(s: State, step: Step, s': State) {
    && (forall t | t in s'.threads :: t in s.threads && s'.threads[t] == s.threads[t])
    && (!step.Crash? ==> s'.threads == s.threads && s.live <= s'.live)
    && (forall q: Worker, op | Thread(op, q) in s'.threads && q.owner.process in s.live :: q.owner.process in s'.live)
    && (forall t | t in s'.drafts && !(step.Measure? && t == Thread(step.op, step.who)) :: t in s.drafts && s'.drafts[t] == s.drafts[t])
    && (step.Measure? ==> s'.drafts == s.drafts[Thread(step.op, step.who) := DraftOf(s, step.op, step.who) + [step.target]])
  }

  ghost predicate Entered(s: State, step: Step, s': State)
    requires IsClaim(step)
  {
    && step.op in s.rows && step.who.owner.process in s.live
    && s'.rows == s.rows[step.op := Leased(s.rows[step.op], step.who.owner, step.until)]
    && s'.(rows := s.rows, threads := s.threads) == s
    && (if step.Refresh? then s'.threads == s.threads
        else Thread(step.op, step.who) in s'.threads
             && s'.threads == s.threads[Thread(step.op, step.who) := s'.threads[Thread(step.op, step.who)]])
  }

  ghost predicate Worked(s: State, step: Step, s': State)
    requires HasSubject(step)
  {
    var op, t := step.op, Thread(step.op, step.who);
    && At(s, op, step.who) && op in s'.rows
    && s'.rows == s.rows[op := s'.rows[op]]
    && SameTargets(s.rows[op].targets, s'.rows[op].targets)
    && s'.rows[op] == s.rows[op].(phase := PhaseAfter(step, s.rows[op].phase), targets := s'.rows[op].targets, expires := s'.rows[op].expires)
    && (!WritesRow(step) ==> s'.rows == s.rows)
    && s'.live == s.live && s'.now == s.now && s'.drafts == s.drafts
    && (if IsLast(step) then s'.threads == s.threads - {t} else t in s'.threads && s'.threads == s.threads[t := s'.threads[t]])
    && s'.claims == (if step.SaveRolledBack? || step.SaveFinalized? then Unclaimed(s.claims, op) else s.claims)
    && s'.domain == (if step.Commit? then s.domain + {op} else s.domain)
  }

  lemma StepHasEffect(s: State, step: Step)
    requires Enabled(s, step)
    ensures Effect(s, step, After(s, step))
  {
    hide Enabled, After, Uninvolved, Entered, Worked, Published;
    if !HasSubject(step) {
      UninvolvedEffect(s, step);
    } else if step.Begin? {
      BeginEffect(s, step);
    } else if IsClaim(step) {
      ClaimEffect(s, step);
    } else if IsFsStep(step) || step.SkipPark? || step.SkipPutBack? || step.SkipReap? || step.Abandon? {
      MoveEffect(s, step);
    } else if step.SavePark? || step.SaveRestored? || step.SaveReaped? {
      SaveEffect(s, step);
    } else {
      PhaseEffect(s, step);
    }
  }

  lemma UninvolvedEffect(s: State, step: Step)
    requires Enabled(s, step) && !HasSubject(step)
    ensures var s' := After(s, step); s'.rows == s.rows && s'.claims == s.claims && s'.domain == s.domain && (!step.Write? ==> s'.fs == s.fs)
    ensures Uninvolved(s, step, After(s, step))
  {
    hide Enabled, DraftOf, TargetIsSound, Reserved;
  }

  lemma BeginEffect(s: State, step: Step)
    requires Enabled(s, step) && step.Begin?
    ensures step.op !in s.rows && After(s, step).fs == s.fs
    ensures After(s, step) == Published(s, step.op, step.who, Row(step.kind, step.subject, Intent, step.targets, step.who.owner, step.until))
  {
    hide DraftOf, NoConflict, Originals;
  }

  lemma ClaimEffect(s: State, step: Step)
    requires Enabled(s, step) && IsClaim(step)
    ensures After(s, step).fs == s.fs && Entered(s, step, After(s, step))
  {
    hide CanClaim, Receipts;
  }

  lemma MoveEffect(s: State, step: Step)
    requires Enabled(s, step) && (IsFsStep(step) || step.SkipPark? || step.SkipPutBack? || step.SkipReap? || step.Abandon?)
    ensures Worked(s, step, After(s, step)) && (!IsFsStep(step) ==> After(s, step).fs == s.fs)
  {
    hide Enabled, After, Worked;
    if IsFsStep(step) {
      FsMoveEffect(s, step);
    } else {
      SkipEffect(s, step);
    }
  }

  lemma FsMoveEffect(s: State, step: Step)
    requires Enabled(s, step) && IsFsStep(step)
    ensures Worked(s, step, After(s, step))
  {
    hide Matches, Original, Parking, Renaming;
    assert At(s, step.op, step.who);
    assert After(s, step).rows == s.rows;
    assert s.rows == s.rows[step.op := s.rows[step.op]];
  }

  lemma SkipEffect(s: State, step: Step)
    requires Enabled(s, step) && (step.SkipPark? || step.SkipPutBack? || step.SkipReap? || step.Abandon?)
    ensures Worked(s, step, After(s, step)) && After(s, step).fs == s.fs
  {
    hide Matches, Original, Parking;
    assert At(s, step.op, step.who);
    assert After(s, step).rows == s.rows;
    assert s.rows == s.rows[step.op := s.rows[step.op]];
  }

  lemma SaveEffect(s: State, step: Step)
    requires Enabled(s, step) && (step.SavePark? || step.SaveRestored? || step.SaveReaped?)
    ensures Worked(s, step, After(s, step)) && After(s, step).fs == s.fs
  {
    hide Enabled, After, Worked;
    if step.SavePark? {
      SaveParkEffect(s, step);
    } else if step.SaveRestored? {
      SaveRestoredEffect(s, step);
    } else {
      SaveReapedEffect(s, step);
    }
  }

  lemma SaveParkEffect(s: State, step: Step)
    requires Enabled(s, step) && step.SavePark?
    ensures Worked(s, step, After(s, step)) && After(s, step).fs == s.fs
  {
    hide Worked, SaveOne, Receipted, Receipts;
    var i := PcOf(s, step.op, step.who).at;
    SaveOneWorks(s, step, i, Moved, Staging(i + 1));
  }

  lemma SaveRestoredEffect(s: State, step: Step)
    requires Enabled(s, step) && step.SaveRestored?
    ensures Worked(s, step, After(s, step)) && After(s, step).fs == s.fs
  {
    hide Worked, SaveOne, Receipted, Receipts;
    var i := PcOf(s, step.op, step.who).at;
    SaveOneWorks(s, step, i, Restored, Restoring(i));
  }

  lemma SaveReapedEffect(s: State, step: Step)
    requires Enabled(s, step) && step.SaveReaped?
    ensures Worked(s, step, After(s, step)) && After(s, step).fs == s.fs
  {
    hide Worked, SaveOne, Receipted, Receipts;
    var i := PcOf(s, step.op, step.who).at;
    SaveOneWorks(s, step, i, Deleted, Reaping(i + 1));
  }

  lemma SaveOneWorks(s: State, step: Step, i: nat, receipt: Receipt, pc: Pc)
    requires step.SavePark? || step.SaveRestored? || step.SaveReaped?
    requires At(s, step.op, step.who) && MaySave(s, step.op, step.who) && i < |s.rows[step.op].targets|
    ensures var s' := SaveOne(s, step.op, step.who, i, receipt, step.until, pc); Worked(s, step, s') && s'.fs == s.fs
  {
  }

  lemma PhaseEffect(s: State, step: Step)
    requires Enabled(s, step) && (step.SaveDetached? || step.SaveRolledBack? || step.SaveFinalized? || step.Commit?)
    ensures Worked(s, step, After(s, step)) && After(s, step).fs == s.fs
  {
    hide Enabled, After, Worked;
    if step.SaveDetached? {
      DetachedEffect(s, step);
    } else if step.Commit? {
      CommitEffect(s, step);
    } else {
      EndEffect(s, step);
    }
  }

  lemma DetachedEffect(s: State, step: Step)
    requires Enabled(s, step) && step.SaveDetached?
    ensures Worked(s, step, After(s, step)) && After(s, step).fs == s.fs
  {
  }

  lemma CommitEffect(s: State, step: Step)
    requires Enabled(s, step) && step.Commit?
    ensures Worked(s, step, After(s, step)) && After(s, step).fs == s.fs
  {
  }

  lemma EndEffect(s: State, step: Step)
    requires Enabled(s, step) && (step.SaveRolledBack? || step.SaveFinalized?)
    ensures Worked(s, step, After(s, step)) && After(s, step).fs == s.fs
  {
    hide Enabled, After, Worked;
    if step.SaveRolledBack? {
      RolledBackEffect(s, step);
    } else {
      FinalizedEffect(s, step);
    }
  }

  lemma RolledBackEffect(s: State, step: Step)
    requires Enabled(s, step) && step.SaveRolledBack?
    ensures Worked(s, step, After(s, step)) && After(s, step).fs == s.fs
  {
    hide Unclaimed;
  }

  lemma FinalizedEffect(s: State, step: Step)
    requires Enabled(s, step) && step.SaveFinalized?
    ensures Worked(s, step, After(s, step)) && After(s, step).fs == s.fs
  {
    hide Unclaimed;
  }

  /** The target a filesystem step is about to move or delete. */
  function FsIndex(s: State, step: Step): nat
    requires Enabled(s, step) && IsFsStep(step)
  {
    if step.PutTargetBack? then PcOf(s, step.op, step.who).rest - 1 else PcOf(s, step.op, step.who).next
  }

  /** A filesystem step touches the two places of its target and nothing else. */
  lemma FsStepIsLocal(s: State, step: Step, p: Path)
    requires Enabled(s, step) && IsFsStep(step)
    requires p != Original(s.rows[step.op].targets[FsIndex(s, step)])
    requires p != Parking(s.rows[step.op].targets[FsIndex(s, step)], step.op, FsIndex(s, step))
    ensures SameAt(s, After(s, step), p)
  {
  }

  lemma FsStepIsInside(s: State, step: Step)
    requires Enabled(s, step) && IsFsStep(step)
    ensures At(s, step.op, step.who) && FsIndex(s, step) < |s.rows[step.op].targets|
  {
    hide Matches, Original, Parking;
  }

  /** What a filesystem step finds and what it does to the files. */
  ghost predicate FileEffect(s: State, step: Step, s': State, k: nat)
    requires IsFsStep(step) && step.op in s.rows && k < |s.rows[step.op].targets|
  {
    var t, parking := s.rows[step.op].targets[k], Parking(s.rows[step.op].targets[k], step.op, k);
    if step.Park? then
      Original(t) in s.fs && parking !in s.fs && Matches(t, s.fs[Original(t)]) && s'.fs == Renaming(s.fs, Original(t), parking)
    else
      Original(t) !in s.fs && parking in s.fs && Matches(t, s.fs[parking])
      && s'.fs == (if step.PutTargetBack? then Renaming(s.fs, parking, Original(t)) else s.fs - {parking})
  }

  lemma FsStepHasEffect(s: State, step: Step)
    requires Enabled(s, step) && IsFsStep(step)
    ensures At(s, step.op, step.who) && FsIndex(s, step) < |s.rows[step.op].targets|
    ensures FileEffect(s, step, After(s, step), FsIndex(s, step)) && After(s, step).rows == s.rows
  {
    hide Matches, Original, Parking, Renaming;
    FsStepIsInside(s, step);
  }

  /** A write from outside changes its path only. */
  lemma WriteIsLocal(s: State, step: Step, p: Path)
    requires Enabled(s, step) && step.Write? && step.path != p
    ensures SameAt(s, After(s, step), p)
  {
  }

  lemma SubjectIsUnfinished(s: State, step: Step)
    requires Inv(s) && Enabled(s, step) && IsFsStep(step)
    ensures step.op in s.rows && Unfinished(s.rows[step.op])
  {
    hide Enabled, Inv;
    FsStepIsInside(s, step);
    OnlyThread(s, step.op, step.who, step.who);
  }

  lemma OthersKeepPlace(s: State, step: Step, op: Id, i: nat)
    requires Inv(s) && Enabled(s, step) && IsFsStep(step)
    requires op in s.rows && i < |s.rows[op].targets| && step.op != op
    ensures Unfinished(s.rows[op]) ==> SameAt(s, After(s, step), Original(s.rows[op].targets[i]))
    ensures SameAt(s, After(s, step), Parking(s.rows[op].targets[i], op, i))
  {
    assert RowOK(s, op) && RowOK(s, step.op);
    SubjectIsUnfinished(s, step);
    PlacesApart(s, op, i, step.op, FsIndex(s, step));
    if Unfinished(s.rows[op]) {
      FsStepIsLocal(s, step, Original(s.rows[op].targets[i]));
    }
    FsStepIsLocal(s, step, Parking(s.rows[op].targets[i], op, i));
  }

  lemma OtherStepsKeepFiles(s: State, step: Step)
    requires Enabled(s, step) && !IsFsStep(step) && !step.Write?
    ensures After(s, step).fs == s.fs
  {
    hide Enabled, After;
    StepHasEffect(s, step);
  }

  lemma OthersKeepPlaces(s: State, step: Step, op: Id)
    requires Inv(s) && Enabled(s, step) && op in s.rows
    requires HasSubject(step) ==> step.op != op
    ensures SameParking(s, After(s, step), op)
    ensures Unfinished(s.rows[op]) ==> SamePlaces(s, After(s, step), op)
  {
    hide Enabled, After, Inv, Original, Parking;
    var s' := After(s, step);
    forall i | 0 <= i < |s.rows[op].targets|
      ensures Unfinished(s.rows[op]) ==> SameAt(s, s', Original(s.rows[op].targets[i]))
      ensures SameAt(s, s', Parking(s.rows[op].targets[i], op, i))
    {
      if IsFsStep(step) {
        OthersKeepPlace(s, step, op, i);
      } else if step.Write? {
        WritesAvoid(s, step, op, i);
      } else {
        OtherStepsKeepFiles(s, step);
      }
    }
  }

  lemma WritesAvoid(s: State, step: Step, op: Id, i: nat)
    requires Enabled(s, step) && step.Write? && op in s.rows && i < |s.rows[op].targets|
    ensures Unfinished(s.rows[op]) ==> SameAt(s, After(s, step), Original(s.rows[op].targets[i]))
    ensures SameAt(s, After(s, step), Parking(s.rows[op].targets[i], op, i))
  {
  }

  lemma Kinds(step: Step)
    ensures step.Begin? ==> HasSubject(step) && !IsClaim(step)
    ensures IsClaim(step) || IsFsStep(step) || WritesRow(step) || IsLast(step) ==> HasSubject(step) && !step.Begin?
    ensures IsFsStep(step) || WritesRow(step) || IsLast(step) ==> !IsClaim(step)
    ensures IsFsStep(step) || IsRowStep(step) ==> HasSubject(step) && !step.Begin? && !IsClaim(step)
    ensures step.SaveRolledBack? || step.SaveFinalized? ==> HasSubject(step) && !step.Begin? && !IsClaim(step)
    ensures step.Measure? ==> !HasSubject(step)
  {
  }

  lemma OthersKeepRowBy(s: State, step: Step, s': State, op: Id)
    requires Effect(s, step, s') && op in s.rows
    requires HasSubject(step) ==> step.op != op
    ensures op in s'.rows && s'.rows[op] == s.rows[op]
    ensures op in s.domain <==> op in s'.domain
  {
    Kinds(step);
    hide HasSubject, IsClaim, IsFsStep, WritesRow, IsLast, Unclaimed, Originals, DraftOf, PhaseAfter, SameTargets, Uninvolved;
  }

  lemma OthersKeepRow(s: State, step: Step, op: Id)
    requires Enabled(s, step) && op in s.rows
    requires HasSubject(step) ==> step.op != op
    ensures op in After(s, step).rows && After(s, step).rows[op] == s.rows[op]
    ensures op in s.domain <==> op in After(s, step).domain
  {
    hide Enabled, After, Effect;
    StepHasEffect(s, step);
    OthersKeepRowBy(s, step, After(s, step), op);
  }

  lemma RowsComeFromBeginBy(s: State, step: Step, s': State, op: Id)
    requires Effect(s, step, s') && op in s'.rows && (HasSubject(step) ==> step.op != op)
    ensures op in s.rows
  {
    Kinds(step);
    hide HasSubject, IsClaim, IsFsStep, WritesRow, IsLast, Unclaimed, Originals, DraftOf, PhaseAfter, SameTargets, Uninvolved;
  }

  lemma RowsComeFromBegin(s: State, step: Step, op: Id)
    requires Enabled(s, step) && op in After(s, step).rows && (HasSubject(step) ==> step.op != op)
    ensures op in s.rows
  {
    hide Enabled, After, Effect;
    StepHasEffect(s, step);
    RowsComeFromBeginBy(s, step, After(s, step), op);
  }

  lemma OthersKeepThreadsBy(s: State, step: Step, s': State, op: Id, q: Worker)
    requires Effect(s, step, s')
    requires HasSubject(step) ==> step.op != op
    requires Thread(op, q) in s'.threads
    ensures Thread(op, q) in s.threads && s.threads[Thread(op, q)] == s'.threads[Thread(op, q)]
    ensures q.owner.process in s.live ==> q.owner.process in s'.live
  {
    Kinds(step);
    hide HasSubject, IsClaim, IsFsStep, WritesRow, IsLast, Unclaimed, Originals, DraftOf, PhaseAfter, SameTargets;
  }

  lemma OthersKeepThreads(s: State, step: Step, op: Id, q: Worker)
    requires Enabled(s, step)
    requires HasSubject(step) ==> step.op != op
    requires Thread(op, q) in After(s, step).threads
    ensures Thread(op, q) in s.threads && s.threads[Thread(op, q)] == After(s, step).threads[Thread(op, q)]
    ensures q.owner.process in s.live ==> q.owner.process in After(s, step).live
  {
    hide Enabled, After, Effect;
    StepHasEffect(s, step);
    OthersKeepThreadsBy(s, step, After(s, step), op, q);
  }

  lemma OldRow(s: State, step: Step, op: Id)
    requires Enabled(s, step) && op in After(s, step).rows && (step.Begin? ==> step.op != op)
    ensures op in s.rows
  {
    hide Enabled, After;
    StepHasEffect(s, step);
  }

  /** A step drives no thread but its own. */
  lemma OtherThreadsStay(s: State, step: Step, t: Thread)
    requires Enabled(s, step) && t in After(s, step).threads && !(HasSubject(step) && t == Thread(step.op, step.who))
    ensures t in s.threads && After(s, step).threads[t] == s.threads[t]
  {
    hide Enabled, After;
    StepHasEffect(s, step);
  }

  /** Which steps change the phase of their row, and to what. */
  lemma PhaseOfSubject(s: State, step: Step)
    requires Enabled(s, step) && HasSubject(step) && step.op in s.rows
    ensures !step.Begin? && step.op in After(s, step).rows
    ensures After(s, step).rows[step.op].phase == PhaseAfter(step, s.rows[step.op].phase)
    ensures s.domain <= After(s, step).domain
  {
    hide Enabled, After;
    StepHasEffect(s, step);
  }

  /** The program counter after the next effect of a program. */
  function Advanced(pc: Pc): Pc {
    match pc
    case Staging(i) => Renamed(i)
    case Renamed(i) => Staging(i + 1)
    case Staged => Staged
    case Restoring(k) => if k == 0 then pc else PutBack(k - 1)
    case PutBack(k) => Restoring(k)
    case Reaping(i) => Reaped(i)
    case Reaped(i) => Reaping(i + 1)
  }

  lemma PcAdvances(s: State, step: Step)
    requires Enabled(s, step) && HasSubject(step) && !step.Begin? && !IsClaim(step) && !IsLast(step) && !step.SaveDetached?
    ensures At(s, step.op, step.who) && At(After(s, step), step.op, step.who)
    ensures PcOf(After(s, step), step.op, step.who) == Advanced(PcOf(s, step.op, step.who))
  {
    hide Enabled, After, Advanced;
    StepHasEffect(s, step);
    if WritesRow(step) {
      SavedPc(s, step);
    } else {
      MovedPc(s, step);
    }
  }

  lemma SavedPc(s: State, step: Step)
    requires Enabled(s, step) && (step.SavePark? || step.SaveRestored? || step.SaveReaped?) && At(s, step.op, step.who)
    requires At(After(s, step), step.op, step.who)
    ensures PcOf(After(s, step), step.op, step.who) == Advanced(PcOf(s, step.op, step.who))
  {
    hide Receipted, Receipts;
  }

  lemma MovedPc(s: State, step: Step)
    requires Enabled(s, step) && HasSubject(step) && !step.Begin? && !IsClaim(step) && !IsLast(step) && !WritesRow(step)
    requires At(s, step.op, step.who) && At(After(s, step), step.op, step.who)
    ensures PcOf(After(s, step), step.op, step.who) == Advanced(PcOf(s, step.op, step.who))
  {
    hide Matches, Original, Parking, Renaming;
  }

  /** Where a claim enters the program of an operation with `n` targets. */
  function EntryPc(step: Step, n: nat): Pc {
    if step.BeginStage? then Staging(0) else if step.BeginRollback? then Restoring(n) else Reaping(0)
  }

  lemma ClaimEnters(s: State, step: Step)
    requires Enabled(s, step) && (step.BeginStage? || step.BeginRollback? || step.BeginReap?)
    ensures step.op in s.rows && At(After(s, step), step.op, step.who)
    ensures After(s, step).threads[Thread(step.op, step.who)]
         == Work(EntryPc(step, |s.rows[step.op].targets|), Receipts(s.rows[step.op].targets))
  {
    hide CanClaim, Receipts;
  }

  /** Operations a step is not about are untouched by it. */
  lemma OthersKeep(s: State, step: Step, op: Id)
    requires Inv(s) && Enabled(s, step) && op in s.rows
    requires HasSubject(step) ==> step.op != op
    ensures op in After(s, step).rows && After(s, step).rows[op] == s.rows[op]
    ensures RowOK(After(s, step), op)
  {
    assert RowOK(s, op);
    OthersKeepRow(s, step, op);
    OthersKeepPlaces(s, step, op);
    forall q | Thread(op, q) in After(s, step).threads
      ensures Thread(op, q) in s.threads && s.threads[Thread(op, q)] == After(s, step).threads[Thread(op, q)]
              && (q.owner.process in s.live ==> q.owner.process in After(s, step).live)
    {
      OthersKeepThreads(s, step, op, q);
    }
    RowFrame(s, After(s, step), op);
  }

  /** A publication of targets that still stand where they were measured. */
  lemma BeginKeeps(s: State, step: Step)
    requires Inv(s) && Enabled(s, step) && step.Begin? && Current(s, step)
    ensures step.op in After(s, step).rows && RowOK(After(s, step), step.op)
  {
    var s' := After(s, step);
    var op := step.op;
    DraftIsOK(s, op, step.who);
    forall j | 0 <= j < |step.targets| ensures AtOrigin(s', op, j) {
      assert Stands(s, step.targets[j]);
    }
    forall o ensures Thread(op, o) !in s'.threads {
      assert Thread(op, o) in s.threads ==> Thread(op, o).operation in s.rows;
    }
  }

  lemma DraftIsOK(s: State, op: Id, who: Worker)
    requires Inv(s) && op !in s.rows && Thread(op, who) in s.drafts
    ensures DraftOK(s, Thread(op, who))
  {
    assert Thread(op, who).operation == op;
  }

  lemma ClaimMovesNothingBy(s: State, step: Step, s': State)
    requires Effect(s, step, s') && IsClaim(step)
    ensures var op := step.op;
            op in s'.rows && s'.rows[op] == Leased(s.rows[op], step.who.owner, step.until) && s'.live == s.live && s'.domain == s.domain
            && step.who.owner.process in s.live && s'.fs == s.fs
  {
    hide Worked, Uninvolved;
  }

  lemma ClaimMovesNothing(s: State, step: Step)
    requires Enabled(s, step) && IsClaim(step)
    ensures var s', op := After(s, step), step.op;
            op in s'.rows && s'.rows[op] == Leased(s.rows[op], step.who.owner, step.until) && s'.live == s.live && s'.domain == s.domain
            && step.who.owner.process in s.live && s'.fs == s.fs
  {
    hide Enabled, After, Effect;
    StepHasEffect(s, step);
    ClaimMovesNothingBy(s, step, After(s, step));
  }

  lemma LeaseKeepsPlaces(s: State, s': State, op: Id)
    requires op in s.rows && op in s'.rows && s'.fs == s.fs
    requires s'.rows[op].targets == s.rows[op].targets && s'.rows[op].phase == s.rows[op].phase
    ensures TargetsOK(s.rows[op]) ==> TargetsOK(s'.rows[op])
    ensures PlacesOK(s, op) ==> PlacesOK(s', op)
    ensures forall pc :: PcOK(s, op, pc) ==> PcOK(s', op, pc)
  {
    hide AtOrigin, InTrash, Gone, Unparked, Matches;
    forall i | 0 <= i < |s.rows[op].targets|
      ensures (AtOrigin(s, op, i) <==> AtOrigin(s', op, i)) && (InTrash(s, op, i) <==> InTrash(s', op, i))
      ensures (Gone(s, op, i) <==> Gone(s', op, i)) && (Unparked(s, op, i) <==> Unparked(s', op, i))
    {
      ReceiptsMoveNothing(s, s', op, i);
    }
  }

  /** A claim that starts a program starts it at a point that the row allows. */
  lemma EntryIsOK(s: State, step: Step)
    requires Enabled(s, step) && (step.BeginStage? || step.BeginRollback? || step.BeginReap?)
    ensures var s', t := After(s, step), Thread(step.op, step.who);
            step.op in s'.rows && t in s'.threads && PcOK(s', step.op, s'.threads[t].pc)
            && s'.threads[t].receipts == Receipts(s'.rows[step.op].targets)
  {
  }

  lemma ClaimThreadsBy(s: State, step: Step, s': State, w: Worker)
    requires Effect(s, step, s') && IsClaim(step) && Thread(step.op, w) in s'.threads
    ensures (w == step.who && !step.Refresh?) || (Thread(step.op, w) in s.threads && s'.threads[Thread(step.op, w)] == s.threads[Thread(step.op, w)])
  {
    hide Worked, Uninvolved;
  }

  lemma ClaimThreads(s: State, step: Step, w: Worker)
    requires Enabled(s, step) && IsClaim(step) && Thread(step.op, w) in After(s, step).threads
    ensures (w == step.who && !step.Refresh?) || (Thread(step.op, w) in s.threads && After(s, step).threads[Thread(step.op, w)] == s.threads[Thread(step.op, w)])
  {
    hide Enabled, After, Effect;
    StepHasEffect(s, step);
    ClaimThreadsBy(s, step, After(s, step), w);
  }

  lemma ClaimKeeps(s: State, step: Step)
    requires Inv(s) && Enabled(s, step) && Alone(s, step)
    requires IsClaim(step)
    ensures step.op in After(s, step).rows && RowOK(After(s, step), step.op)
  {
    hide Inv, Enabled, After, PcOK, PlacesOK, TargetsOK, Receipts;
    var s' := After(s, step);
    var op := step.op;
    ClaimMovesNothing(s, step);
    SubjectOfClaim(s, step);
    RowIsOK(s, op);
    LeaseKeepsPlaces(s, s', op);
    forall w | Thread(op, w) in s'.threads
      ensures w.owner == s'.rows[op].owner && w.owner.process in s'.live
      ensures PcOK(s', op, s'.threads[Thread(op, w)].pc) && s'.threads[Thread(op, w)].receipts == Receipts(s'.rows[op].targets)
    {
      ClaimThreads(s, step, w);
      if w == step.who && !step.Refresh? {
        EntryIsOK(s, step);
      }
    }
    forall v, w | Thread(op, v) in s'.threads && Thread(op, w) in s'.threads ensures v == w {
      ClaimThreads(s, step, v);
      ClaimThreads(s, step, w);
    }
  }

  lemma SubjectOfClaim(s: State, step: Step)
    requires Enabled(s, step) && IsClaim(step)
    ensures step.op in s.rows
  {
    hide Enabled, After;
    StepHasEffect(s, step);
  }

  /** A filesystem step changes where its own target is, and leaves its siblings alone. */
  lemma SiblingsKeep(s: State, step: Step, j: nat)
    requires Inv(s) && Enabled(s, step) && IsFsStep(step)
    requires j < |s.rows[step.op].targets| && j != FsIndex(s, step)
    ensures var s' := After(s, step);
            (AtOrigin(s, step.op, j) <==> AtOrigin(s', step.op, j)) && (InTrash(s, step.op, j) <==> InTrash(s', step.op, j))
            && (Gone(s, step.op, j) <==> Gone(s', step.op, j))
  {
    assert RowOK(s, step.op);
    PlacesApart(s, step.op, j, step.op, FsIndex(s, step));
    FsStepIsLocal(s, step, Original(s.rows[step.op].targets[j]));
    FsStepIsLocal(s, step, Parking(s.rows[step.op].targets[j], step.op, j));
  }

  lemma AllSiblingsKeep(s: State, step: Step)
    requires Inv(s) && Enabled(s, step) && IsFsStep(step)
    ensures var s', op, k := After(s, step), step.op, FsIndex(s, step);
            forall j | 0 <= j < |s.rows[op].targets| && j != k ::
              (AtOrigin(s, op, j) <==> AtOrigin(s', op, j)) && (InTrash(s, op, j) <==> InTrash(s', op, j)) && (Gone(s, op, j) <==> Gone(s', op, j))
  {
    var s', op, k := After(s, step), step.op, FsIndex(s, step);
    forall j | 0 <= j < |s.rows[op].targets| && j != k
      ensures (AtOrigin(s, op, j) <==> AtOrigin(s', op, j)) && (InTrash(s, op, j) <==> InTrash(s', op, j)) && (Gone(s, op, j) <==> Gone(s', op, j))
    {
      SiblingsKeep(s, step, j);
    }
  }

  lemma RowIsOK(s: State, op: Id)
    requires Inv(s) && op in s.rows
    ensures RowOK(s, op)
  {
  }

  /** The acting thread is the only one of its operation, and holds the lease. */
  lemma OnlyThread(s: State, op: Id, q: Worker, o: Worker)
    requires Inv(s) && Thread(op, q) in s.threads && Thread(op, o) in s.threads
    ensures op in s.rows && q == o && q.owner == s.rows[op].owner && q.owner.process in s.live
    ensures At(s, op, q) && PcOK(s, op, PcOf(s, op, q)) && CopyOf(s, op, q) == Receipts(s.rows[op].targets)
  {
    assert Thread(op, q).operation in s.rows;
    assert RowOK(s, op);
  }

  lemma SubjectKeepsLeaseBy(s: State, step: Step, s': State, o: Worker)
    requires Effect(s, step, s') && (IsFsStep(step) || IsRowStep(step))
    ensures At(s, step.op, step.who)
    ensures At(s, step.op, step.who) && step.op in s'.rows && s'.rows[step.op].owner == s.rows[step.op].owner && s'.live == s.live
            && (Thread(step.op, o) in s'.threads ==> Thread(step.op, o) in s.threads)
  {
    Kinds(step);
    hide HasSubject, IsClaim, IsFsStep, WritesRow, IsLast, Unclaimed, Originals, DraftOf, PhaseAfter, IsRowStep, SameTargets, Entered, Uninvolved, Published;
  }

  lemma SubjectKeepsLease(s: State, step: Step, o: Worker)
    requires Enabled(s, step) && (IsFsStep(step) || IsRowStep(step))
    ensures At(s, step.op, step.who)
    ensures var s' := After(s, step);
            At(s, step.op, step.who) && step.op in s'.rows && s'.rows[step.op].owner == s.rows[step.op].owner && s'.live == s.live
            && (Thread(step.op, o) in s'.threads ==> Thread(step.op, o) in s.threads)
  {
    hide Enabled, After, Effect;
    StepHasEffect(s, step);
    SubjectKeepsLeaseBy(s, step, After(s, step), o);
  }

  /** It is enough to look at the acting thread. */
  lemma SubjectRowOK(s: State, s': State, step: Step)
    requires Inv(s) && Enabled(s, step) && (IsFsStep(step) || IsRowStep(step)) && s' == After(s, step)
    requires step.op in s'.rows && TargetsOK(s'.rows[step.op]) && PlacesOK(s', step.op)
    requires step.op in s'.domain <==> s'.rows[step.op].phase == Committed || s'.rows[step.op].phase == Finalized
    requires Thread(step.op, step.who) in s'.threads ==>
               PcOK(s', step.op, PcOf(s', step.op, step.who)) && CopyOf(s', step.op, step.who) == Receipts(s'.rows[step.op].targets)
    ensures RowOK(s', step.op)
  {
    hide Inv, Enabled, After, PcOK, PlacesOK, TargetsOK, Receipts;
    forall o | Thread(step.op, o) in s'.threads
      ensures o == step.who && o.owner == s'.rows[step.op].owner && o.owner.process in s'.live
    {
      SubjectKeepsLease(s, step, o);
      OnlyThread(s, step.op, step.who, o);
    }
  }

  /** A save of an exact copy with one more receipt marks that target and no other. */
  lemma SaveMarksOne(targets: seq<Target>, i: nat, receipt: Receipt)
    requires i < |targets|
    ensures Receipted(targets, Receipts(targets)[i := receipt]) == targets[i := targets[i].(receipt := receipt)]
    ensures Receipts(targets[i := targets[i].(receipt := receipt)]) == Receipts(targets)[i := receipt]
  {
  }

  lemma SaveMarksNone(targets: seq<Target>)
    ensures Receipted(targets, Receipts(targets)) == targets
  {
  }

  lemma ParkKeeps(s: State, step: Step)
    requires Inv(s) && Enabled(s, step) && step.Park?
    ensures step.op in After(s, step).rows && RowOK(After(s, step), step.op)
  {
    hide Inv, Matches, TargetsOK, ThreadsOK;
    RowIsOK(s, step.op);
    AllSiblingsKeep(s, step);
    OwnPlacesApart(s, step.op, FsIndex(s, step));
    OnlyThread(s, step.op, step.who, step.who);
    assert InTrash(After(s, step), step.op, FsIndex(s, step));
    SubjectRowOK(s, After(s, step), step);
  }

  lemma PutTargetBackKeeps(s: State, step: Step)
    requires Inv(s) && Enabled(s, step) && step.PutTargetBack?
    ensures step.op in After(s, step).rows && RowOK(After(s, step), step.op)
  {
    hide Inv, Matches, TargetsOK, ThreadsOK;
    RowIsOK(s, step.op);
    AllSiblingsKeep(s, step);
    OwnPlacesApart(s, step.op, FsIndex(s, step));
    OnlyThread(s, step.op, step.who, step.who);
    assert AtOrigin(After(s, step), step.op, FsIndex(s, step));
    SubjectRowOK(s, After(s, step), step);
  }

  lemma ReapKeeps(s: State, step: Step)
    requires Inv(s) && Enabled(s, step) && step.Reap?
    ensures step.op in After(s, step).rows && RowOK(After(s, step), step.op)
  {
    hide Inv, Matches, TargetsOK, ThreadsOK;
    RowIsOK(s, step.op);
    AllSiblingsKeep(s, step);
    OwnPlacesApart(s, step.op, FsIndex(s, step));
    OnlyThread(s, step.op, step.who, step.who);
    assert Gone(After(s, step), step.op, FsIndex(s, step));
    SubjectRowOK(s, After(s, step), step);
  }

  predicate IsRowStep(step: Step) {
    step.SavePark? || step.SaveDetached? || step.Commit? || step.SaveRestored? || step.SaveRolledBack?
    || step.SaveReaped? || step.SaveFinalized? || step.SkipPark? || step.SkipPutBack? || step.SkipReap? || step.Abandon?
  }

  /** Receipts say nothing about places. */
  lemma ReceiptsMoveNothing(s: State, s': State, op: Id, j: nat)
    requires op in s.rows && op in s'.rows && s'.fs == s.fs && j < |s.rows[op].targets| && j < |s'.rows[op].targets|
    requires s'.rows[op].targets[j] == s.rows[op].targets[j].(receipt := s'.rows[op].targets[j].receipt)
    ensures (AtOrigin(s, op, j) <==> AtOrigin(s', op, j)) && (InTrash(s, op, j) <==> InTrash(s', op, j))
    ensures (Gone(s, op, j) <==> Gone(s', op, j)) && (Unparked(s, op, j) <==> Unparked(s', op, j))
  {
  }

  /** Row steps move nothing. */
  lemma RowStepMovesNothing(s: State, step: Step, j: nat)
    requires Enabled(s, step) && IsRowStep(step) && step.op in s.rows && j < |s.rows[step.op].targets|
    ensures var s' := After(s, step);
            step.op in s'.rows && j < |s'.rows[step.op].targets|
            && (AtOrigin(s, step.op, j) <==> AtOrigin(s', step.op, j)) && (InTrash(s, step.op, j) <==> InTrash(s', step.op, j))
            && (Gone(s, step.op, j) <==> Gone(s', step.op, j)) && (Unparked(s, step.op, j) <==> Unparked(s', step.op, j))
  {
    hide Enabled, After, AtOrigin, InTrash, Gone, Unparked;
    SubjectOfRowStep(s, step);
    OtherStepsKeepFiles(s, step);
    TargetsAreStatic(s, step, step.op);
    ReceiptsMoveNothing(s, After(s, step), step.op, j);
  }

  lemma SubjectOfRowStep(s: State, step: Step)
    requires Enabled(s, step) && IsRowStep(step)
    ensures step.op in s.rows
  {
  }

  lemma RowStepMovesNothingAtAll(s: State, step: Step)
    requires Enabled(s, step) && IsRowStep(step)
    ensures step.op in s.rows
    ensures var s', op := After(s, step), step.op;
            op in s'.rows && |s'.rows[op].targets| == |s.rows[op].targets|
            && forall j | 0 <= j < |s.rows[op].targets| ::
              (AtOrigin(s, op, j) <==> AtOrigin(s', op, j)) && (InTrash(s, op, j) <==> InTrash(s', op, j)) && (Gone(s, op, j) <==> Gone(s', op, j))
  {
    hide Enabled, After, AtOrigin, InTrash, Gone, Unparked;
    SubjectOfRowStep(s, step);
    var s', op := After(s, step), step.op;
    TargetsAreStatic(s, step, op);
    forall j | 0 <= j < |s.rows[op].targets|
      ensures (AtOrigin(s, op, j) <==> AtOrigin(s', op, j)) && (InTrash(s, op, j) <==> InTrash(s', op, j)) && (Gone(s, op, j) <==> Gone(s', op, j))
    {
      RowStepMovesNothing(s, step, j);
    }
  }

  lemma RowStepKeepsTargets(s: State, step: Step)
    requires Inv(s) && Enabled(s, step) && IsRowStep(step)
    ensures step.op in After(s, step).rows && TargetsOK(After(s, step).rows[step.op])
    ensures RowOK(s, step.op)
  {
    hide Inv, Enabled, After, PlacesOK, ThreadsOK;
    SubjectOfRowStep(s, step);
    RowIsOK(s, step.op);
    TargetsAreStatic(s, step, step.op);
  }

  lemma SaveParkKeeps(s: State, step: Step)
    requires Inv(s) && Enabled(s, step) && step.SavePark?
    ensures step.op in After(s, step).rows && RowOK(After(s, step), step.op)
  {
    hide Inv, AtOrigin, InTrash, Gone, Unparked, TargetsOK;
    RowStepKeepsTargets(s, step);
    RowStepMovesNothingAtAll(s, step);
    OnlyThread(s, step.op, step.who, step.who);
    SubjectRowOK(s, After(s, step), step);
  }

  lemma SaveDetachedKeeps(s: State, step: Step)
    requires Inv(s) && Enabled(s, step) && step.SaveDetached?
    ensures step.op in After(s, step).rows && RowOK(After(s, step), step.op)
  {
    hide Inv, AtOrigin, InTrash, Gone, Unparked, TargetsOK;
    RowStepKeepsTargets(s, step);
    RowStepMovesNothingAtAll(s, step);
    OnlyThread(s, step.op, step.who, step.who);
    SubjectRowOK(s, After(s, step), step);
  }

  lemma CommitKeeps(s: State, step: Step)
    requires Inv(s) && Enabled(s, step) && step.Commit?
    ensures step.op in After(s, step).rows && RowOK(After(s, step), step.op)
  {
    hide Inv, AtOrigin, InTrash, Gone, Unparked, TargetsOK;
    RowStepKeepsTargets(s, step);
    RowStepMovesNothingAtAll(s, step);
    OnlyThread(s, step.op, step.who, step.who);
    SubjectRowOK(s, After(s, step), step);
  }

  lemma SkipParkKeeps(s: State, step: Step)
    requires Inv(s) && Enabled(s, step) && step.SkipPark?
    ensures step.op in After(s, step).rows && RowOK(After(s, step), step.op)
  {
    hide Inv, AtOrigin, Gone, Unparked, TargetsOK;
    RowStepKeepsTargets(s, step);
    RowStepMovesNothingAtAll(s, step);
    OnlyThread(s, step.op, step.who, step.who);
    assert InTrash(s, step.op, PcOf(s, step.op, step.who).next);
    SubjectRowOK(s, After(s, step), step);
  }

  lemma SaveRestoredKeeps(s: State, step: Step)
    requires Inv(s) && Enabled(s, step) && step.SaveRestored?
    ensures step.op in After(s, step).rows && RowOK(After(s, step), step.op)
  {
    hide Inv, AtOrigin, InTrash, Gone, Unparked, TargetsOK;
    RowStepKeepsTargets(s, step);
    RowStepMovesNothingAtAll(s, step);
    OnlyThread(s, step.op, step.who, step.who);
    SubjectRowOK(s, After(s, step), step);
  }

  lemma SaveRolledBackKeeps(s: State, step: Step)
    requires Inv(s) && Enabled(s, step) && step.SaveRolledBack?
    ensures step.op in After(s, step).rows && RowOK(After(s, step), step.op)
  {
    hide Inv, Matches, TargetsOK;
    RowStepKeepsTargets(s, step);
    RowStepMovesNothingAtAll(s, step);
    OnlyThread(s, step.op, step.who, step.who);
    var s' := After(s, step);
    forall i | 0 <= i < |s.rows[step.op].targets| ensures Unparked(s', step.op, i) {
      assert AtOrigin(s, step.op, i);
    }
    SubjectRowOK(s, After(s, step), step);
  }

  lemma SkippedTargetIsHome(s: State, op: Id, who: Worker)
    requires Inv(s) && Enabled(s, SkipPutBack(op, who))
    ensures At(s, op, who) && PcOf(s, op, who).Restoring?
    ensures var k := PcOf(s, op, who).rest;
            0 < k <= |s.rows[op].targets| && PcOK(s, op, PutBack(k - 1))
            && After(s, SkipPutBack(op, who)) == Goto(s, op, who, PutBack(k - 1))
    ensures CopyOf(s, op, who) == Receipts(s.rows[op].targets)
  {
    hide Inv, TargetsOK, ThreadsOK, ProperRoot;
    OnlyThread(s, op, who, who);
    RowIsOK(s, op);
    assert AtOrigin(s, op, PcOf(s, op, who).rest - 1);
  }

  lemma SkipPutBackKeeps(s: State, step: Step)
    requires Inv(s) && Enabled(s, step) && step.SkipPutBack?
    ensures step.op in After(s, step).rows && RowOK(After(s, step), step.op)
  {
    hide Inv, Enabled, After;
    RowStepKeepsTargets(s, step);
    RowStepMovesNothingAtAll(s, step);
    SkippedTargetIsHome(s, step.op, step.who);
    SubjectRowOK(s, After(s, step), step);
  }

  lemma SaveReapedKeeps(s: State, step: Step)
    requires Inv(s) && Enabled(s, step) && step.SaveReaped?
    ensures step.op in After(s, step).rows && RowOK(After(s, step), step.op)
  {
    hide Inv, AtOrigin, InTrash, Gone, Unparked, TargetsOK;
    RowStepKeepsTargets(s, step);
    RowStepMovesNothingAtAll(s, step);
    OnlyThread(s, step.op, step.who, step.who);
    SubjectRowOK(s, After(s, step), step);
  }

  lemma SaveFinalizedKeeps(s: State, step: Step)
    requires Inv(s) && Enabled(s, step) && step.SaveFinalized?
    ensures step.op in After(s, step).rows && RowOK(After(s, step), step.op)
  {
    hide Inv, Matches, TargetsOK;
    RowStepKeepsTargets(s, step);
    RowStepMovesNothingAtAll(s, step);
    OnlyThread(s, step.op, step.who, step.who);
    var s' := After(s, step);
    forall i | 0 <= i < |s.rows[step.op].targets| ensures Unparked(s', step.op, i) {
      assert Gone(s, step.op, i);
    }
    SubjectRowOK(s, After(s, step), step);
  }

  lemma SkipReapKeeps(s: State, step: Step)
    requires Inv(s) && Enabled(s, step) && step.SkipReap?
    ensures step.op in After(s, step).rows && RowOK(After(s, step), step.op)
  {
    hide Inv, Enabled, After;
    RowStepKeepsTargets(s, step);
    RowStepMovesNothingAtAll(s, step);
    SkippedTargetIsGone(s, step.op, step.who);
    SubjectRowOK(s, After(s, step), step);
  }

  lemma SkippedTargetIsGone(s: State, op: Id, who: Worker)
    requires Inv(s) && Enabled(s, SkipReap(op, who))
    ensures At(s, op, who) && PcOf(s, op, who).Reaping?
    ensures var k := PcOf(s, op, who).next;
            k < |s.rows[op].targets| && PcOK(s, op, Reaped(k))
            && After(s, SkipReap(op, who)) == Goto(s, op, who, Reaped(k))
    ensures CopyOf(s, op, who) == Receipts(s.rows[op].targets)
  {
    hide Inv, TargetsOK, ThreadsOK, ProperRoot;
    OnlyThread(s, op, who, who);
    RowIsOK(s, op);
    assert Gone(s, op, PcOf(s, op, who).next);
  }

  lemma AbandonKeeps(s: State, step: Step)
    requires Inv(s) && Enabled(s, step) && step.Abandon?
    ensures step.op in After(s, step).rows && RowOK(After(s, step), step.op)
  {
    hide Inv, AtOrigin, InTrash, Gone, Unparked, TargetsOK;
    RowStepKeepsTargets(s, step);
    RowStepMovesNothingAtAll(s, step);
    OnlyThread(s, step.op, step.who, step.who);
    SubjectRowOK(s, After(s, step), step);
  }

  /** The targets of an operation never change after `begin`, except for their receipts. */
  lemma TargetsAreStaticBy(s: State, step: Step, s': State, op: Id)
    requires Effect(s, step, s') && op in s.rows && (HasSubject(step) && step.op == op ==> !step.Begin?)
    ensures op in s'.rows && |s'.rows[op].targets| == |s.rows[op].targets|
    ensures forall i | 0 <= i < |s.rows[op].targets| ::
              s'.rows[op].targets[i] == s.rows[op].targets[i].(receipt := s'.rows[op].targets[i].receipt)
    ensures Unfinished(s'.rows[op]) ==> Unfinished(s.rows[op]) || (HasSubject(step) && step.op == op)
  {
    Kinds(step);
    hide HasSubject, IsClaim, IsFsStep, WritesRow, IsLast, Unclaimed, Originals, DraftOf, PhaseAfter, Uninvolved;
  }

  lemma TargetsAreStatic(s: State, step: Step, op: Id)
    requires Enabled(s, step) && op in s.rows && (HasSubject(step) && step.op == op ==> !step.Begin?)
    ensures op in After(s, step).rows && |After(s, step).rows[op].targets| == |s.rows[op].targets|
    ensures forall i | 0 <= i < |s.rows[op].targets| ::
              After(s, step).rows[op].targets[i] == s.rows[op].targets[i].(receipt := After(s, step).rows[op].targets[i].receipt)
    ensures Unfinished(After(s, step).rows[op]) ==> Unfinished(s.rows[op]) || (HasSubject(step) && step.op == op)
  {
    hide Enabled, After, Effect;
    StepHasEffect(s, step);
    TargetsAreStaticBy(s, step, After(s, step), op);
  }

  lemma BeginAfterBy(s: State, step: Step, s': State)
    requires Effect(s, step, s') && step.Begin?
    ensures step.op !in s.rows
    ensures s'.rows == s.rows[step.op := Row(step.kind, step.subject, Intent, step.targets, step.who.owner, step.until)]
    ensures s'.claims == s.claims + (map p | p in Originals(step.targets) :: step.op)
  {
    hide Worked, Uninvolved, Entered, Originals;
  }

  lemma BeginAfter(s: State, step: Step)
    requires Enabled(s, step) && step.Begin?
    ensures step.op !in s.rows
    ensures After(s, step).rows == s.rows[step.op := Row(step.kind, step.subject, Intent, step.targets, step.who.owner, step.until)]
    ensures After(s, step).claims == s.claims + (map p | p in Originals(step.targets) :: step.op)
  {
    hide Enabled, After, Effect;
    StepHasEffect(s, step);
    BeginAfterBy(s, step, After(s, step));
  }

  lemma SubtreesStayDisjoint(s: State, step: Step)
    requires Inv(s) && Enabled(s, step)
    requires forall op | op in After(s, step).rows :: RowOK(After(s, step), op)
    ensures SubtreesDisjoint(After(s, step))
  {
    hide Enabled, After, Inv, RowOK, Overlap;
    var s' := After(s, step);
    forall a, b, i, j | a in s'.rows && b in s'.rows && a != b && Unfinished(s'.rows[a]) && Unfinished(s'.rows[b])
                        && 0 <= i < |s'.rows[a].targets| && 0 <= j < |s'.rows[b].targets|
      ensures !Overlap(Original(s'.rows[a].targets[i]), Original(s'.rows[b].targets[j]))
    {
      if step.Begin? && (step.op == a || step.op == b) {
        var other, x, y := if step.op == a then b else a, if step.op == a then i else j, if step.op == a then j else i;
        NewTargetsAreApart(s, step, other, x, y);
      } else {
        OldTargetsAreApart(s, step, a, b, i, j);
      }
    }
  }

  lemma NewTargetsAreApart(s: State, step: Step, other: Id, x: nat, y: nat)
    requires Enabled(s, step) && step.Begin? && other != step.op
    requires step.op in After(s, step).rows && x < |After(s, step).rows[step.op].targets|
    requires other in After(s, step).rows && Unfinished(After(s, step).rows[other]) && y < |After(s, step).rows[other].targets|
    ensures !Overlap(Original(After(s, step).rows[step.op].targets[x]), Original(After(s, step).rows[other].targets[y]))
    ensures !Overlap(Original(After(s, step).rows[other].targets[y]), Original(After(s, step).rows[step.op].targets[x]))
  {
    assert NoConflict(s, step.targets);
    BeginAfter(s, step);
    hide Enabled, After;
    OverlapIsContainment(Original(step.targets[x]), Original(s.rows[other].targets[y]));
    OverlapIsContainment(Original(s.rows[other].targets[y]), Original(step.targets[x]));
  }

  lemma OldTargetsAreApart(s: State, step: Step, a: Id, b: Id, i: nat, j: nat)
    requires Inv(s) && Enabled(s, step) && a != b
    requires a in After(s, step).rows && Unfinished(After(s, step).rows[a]) && i < |After(s, step).rows[a].targets|
    requires b in After(s, step).rows && Unfinished(After(s, step).rows[b]) && j < |After(s, step).rows[b].targets|
    requires step.Begin? ==> step.op != a && step.op != b
    ensures !Overlap(Original(After(s, step).rows[a].targets[i]), Original(After(s, step).rows[b].targets[j]))
  {
    hide Enabled, After, Overlap, RowOK, ClaimsOK;
    UnfinishedBefore(s, step, a);
    UnfinishedBefore(s, step, b);
    TargetsAreStatic(s, step, a);
    TargetsAreStatic(s, step, b);
    assert SubtreesDisjoint(s);
  }

  lemma UnfinishedBefore(s: State, step: Step, op: Id)
    requires Inv(s) && Enabled(s, step) && op in After(s, step).rows && Unfinished(After(s, step).rows[op])
    requires step.Begin? ==> step.op != op
    ensures op in s.rows && Unfinished(s.rows[op])
  {
    if HasSubject(step) && step.op == op {
      SubjectStaysUnfinished(s, step);
    } else {
      hide Inv, Enabled, After;
      RowsComeFromBegin(s, step, op);
      OthersKeepRow(s, step, op);
    }
  }

  lemma InsideIsUnfinished(s: State, op: Id, who: Worker)
    requires Inv(s) && Thread(op, who) in s.threads
    ensures op in s.rows && Unfinished(s.rows[op])
  {
    OnlyThread(s, op, who, who);
    hide Inv;
  }

  lemma SubjectStaysUnfinished(s: State, step: Step)
    requires Inv(s) && Enabled(s, step) && HasSubject(step) && !step.Begin? && step.op in After(s, step).rows && Unfinished(After(s, step).rows[step.op])
    ensures step.op in s.rows && Unfinished(s.rows[step.op])
  {
    hide Inv, Enabled, After, PcOK;
    StepHasEffect(s, step);
    if Thread(step.op, step.who) in s.threads {
      InsideIsUnfinished(s, step.op, step.who);
    }
  }

  lemma BeginClaims(s: State, step: Step)
    requires Inv(s) && Enabled(s, step) && step.Begin?
    ensures ClaimsOK(After(s, step))
  {
    var s' := After(s, step);
    assert ClaimsOK(s);
    BeginAfter(s, step);
    hide Inv, Enabled, After, ClaimsOK, Original;
    forall p | p in s'.claims
      ensures s'.claims[p] in s'.rows && Unfinished(s'.rows[s'.claims[p]]) && p in Originals(s'.rows[s'.claims[p]].targets)
    {
      NewClaim(s, step, p);
    }
    forall op, i | op in s'.rows && Unfinished(s'.rows[op]) && 0 <= i < |s'.rows[op].targets|
      ensures Original(s'.rows[op].targets[i]) in s'.claims && s'.claims[Original(s'.rows[op].targets[i])] == op
    {
      NewlyClaimed(s, step, op, i);
    }
    ClaimsOKByParts(s');
  }

  lemma ClaimsOKByParts(s: State)
    requires forall p | p in s.claims ::
               s.claims[p] in s.rows && Unfinished(s.rows[s.claims[p]]) && p in Originals(s.rows[s.claims[p]].targets)
    requires forall op, i | op in s.rows && Unfinished(s.rows[op]) && 0 <= i < |s.rows[op].targets| ::
               Original(s.rows[op].targets[i]) in s.claims && s.claims[Original(s.rows[op].targets[i])] == op
    ensures ClaimsOK(s)
  {
  }

  lemma NewClaim(s: State, step: Step, p: Path)
    requires ClaimsOK(s) && Enabled(s, step) && step.Begin? && p in After(s, step).claims
    ensures var s', op := After(s, step), After(s, step).claims[p];
            op in s'.rows && Unfinished(s'.rows[op]) && p in Originals(s'.rows[op].targets)
  {
    BeginAfter(s, step);
    hide Enabled, After, Original;
  }

  lemma NewlyClaimed(s: State, step: Step, op: Id, i: nat)
    requires ClaimsOK(s) && Enabled(s, step) && step.Begin?
    requires op in After(s, step).rows && Unfinished(After(s, step).rows[op]) && i < |After(s, step).rows[op].targets|
    ensures var s', p := After(s, step), Original(After(s, step).rows[op].targets[i]);
            p in s'.claims && s'.claims[p] == op
  {
    assert NoConflict(s, step.targets);
    BeginAfter(s, step);
    hide Enabled, After, Original, NoConflict;
    var p := Original(After(s, step).rows[op].targets[i]);
    if step.op == op {
      assert step.targets[i] in step.targets;
      assert p in Originals(step.targets);
    } else {
      assert p in s.claims && s.claims[p] == op;
      NewClaimsAreNew(s, step.targets, p);
    }
  }

  lemma NewClaimsAreNew(s: State, targets: seq<Target>, p: Path)
    requires NoConflict(s, targets) && p in s.claims
    ensures p !in Originals(targets)
  {
    hide Original;
  }

  lemma ClaimsOnlyShrinkBy(s: State, step: Step, s': State, p: Path)
    requires Effect(s, step, s') && !step.Begin? && p in s'.claims
    ensures p in s.claims && s.claims[p] == s'.claims[p]
    ensures (step.SaveRolledBack? || step.SaveFinalized?) ==> s.claims[p] != step.op
  {
    Kinds(step);
    hide HasSubject, IsClaim, IsFsStep, WritesRow, IsLast, Originals, DraftOf, PhaseAfter, SameTargets, Uninvolved;
  }

  lemma ClaimsOnlyShrink(s: State, step: Step, p: Path)
    requires Enabled(s, step) && !step.Begin? && p in After(s, step).claims
    ensures p in s.claims && s.claims[p] == After(s, step).claims[p]
    ensures (step.SaveRolledBack? || step.SaveFinalized?) ==> s.claims[p] != step.op
  {
    hide Enabled, After, Effect;
    StepHasEffect(s, step);
    ClaimsOnlyShrinkBy(s, step, After(s, step), p);
  }

  lemma OnlyTwoStepsFinishBy(s: State, step: Step, s': State, op: Id)
    requires Effect(s, step, s') && op in s.rows && Unfinished(s.rows[op])
    requires (step.SaveRolledBack? || step.SaveFinalized?) ==> op != step.op
    ensures op in s'.rows && Unfinished(s'.rows[op])
  {
    Kinds(step);
    hide HasSubject, IsClaim, IsFsStep, WritesRow, IsLast, Unclaimed, Originals, DraftOf, SameTargets, Uninvolved;
  }

  lemma OnlyTwoStepsFinish(s: State, step: Step, op: Id)
    requires Enabled(s, step) && op in s.rows && Unfinished(s.rows[op])
    requires (step.SaveRolledBack? || step.SaveFinalized?) ==> op != step.op
    ensures op in After(s, step).rows && Unfinished(After(s, step).rows[op])
  {
    hide Enabled, After, Effect;
    StepHasEffect(s, step);
    OnlyTwoStepsFinishBy(s, step, After(s, step), op);
  }

  lemma ClaimIsKept(s: State, step: Step, p: Path)
    requires Inv(s) && Enabled(s, step) && !step.Begin? && p in After(s, step).claims
    ensures var s', op := After(s, step), After(s, step).claims[p];
            op in s'.rows && Unfinished(s'.rows[op]) && p in Originals(s'.rows[op].targets)
  {
    var s' := After(s, step);
    ClaimsOnlyShrink(s, step, p);
    var op := s.claims[p];
    assert op in s.rows && Unfinished(s.rows[op]) && p in Originals(s.rows[op].targets);
    OnlyTwoStepsFinish(s, step, op);
    TargetsAreStatic(s, step, op);
    var t :| t in s.rows[op].targets && Original(t) == p;
    var i :| 0 <= i < |s.rows[op].targets| && s.rows[op].targets[i] == t;
    assert Original(s'.rows[op].targets[i]) == p && s'.rows[op].targets[i] in s'.rows[op].targets;
  }

  lemma ClaimsStayExact(s: State, step: Step)
    requires Inv(s) && Enabled(s, step)
    ensures ClaimsOK(After(s, step))
  {
    if step.Begin? {
      BeginClaims(s, step);
    } else {
      hide Inv, Enabled, After, ClaimsOK, Originals, Original;
      var s' := After(s, step);
      forall p | p in s'.claims
        ensures s'.claims[p] in s'.rows && Unfinished(s'.rows[s'.claims[p]]) && p in Originals(s'.rows[s'.claims[p]].targets)
      {
        ClaimIsKept(s, step, p);
      }
      forall op, i | op in s'.rows && Unfinished(s'.rows[op]) && 0 <= i < |s'.rows[op].targets|
        ensures Original(s'.rows[op].targets[i]) in s'.claims && s'.claims[Original(s'.rows[op].targets[i])] == op
      {
        StaysClaimed(s, step, op, i);
      }
      ClaimsOKByParts(s');
    }
  }

  lemma StaysClaimed(s: State, step: Step, op: Id, i: nat)
    requires Inv(s) && Enabled(s, step) && !step.Begin?
    requires op in After(s, step).rows && Unfinished(After(s, step).rows[op]) && i < |After(s, step).rows[op].targets|
    ensures var s', p := After(s, step), Original(After(s, step).rows[op].targets[i]);
            p in s'.claims && s'.claims[p] == op
  {
    hide Enabled, After, RowOK, SubtreesDisjoint, DraftsOK, Effect, Original;
    UnfinishedBefore(s, step, op);
    TargetsAreStatic(s, step, op);
    SameOriginal(s.rows[op].targets[i], After(s, step).rows[op].targets[i].receipt);
    var p := Original(s.rows[op].targets[i]);
    assert p in s.claims && s.claims[p] == op;
    StepHasEffect(s, step);
    ClaimStaysBy(s, step, After(s, step), op, p);
  }

  lemma SameOriginal(t: Target, receipt: Receipt)
    ensures Original(t.(receipt := receipt)) == Original(t)
  {
  }

  /** A claim goes only with the end of its operation. */
  lemma ClaimStaysBy(s: State, step: Step, s': State, op: Id, p: Path)
    requires Effect(s, step, s') && p in s.claims && s.claims[p] == op && !step.Begin?
    requires op in s'.rows && Unfinished(s'.rows[op])
    ensures p in s'.claims && s'.claims[p] == op
  {
    Kinds(step);
    hide HasSubject, IsClaim, IsFsStep, WritesRow, IsLast, Originals, DraftOf, SameTargets, Uninvolved;
  }

  lemma ThreadsAndDomainStayBy(s: State, step: Step, s': State)
    requires Inv(s) && Effect(s, step, s')
    ensures forall t | t in s'.threads :: t.operation in s'.rows
    ensures s'.domain <= s'.rows.Keys
  {
    Kinds(step);
    hide HasSubject, IsClaim, IsFsStep, WritesRow, IsLast, Unclaimed, Originals, DraftOf, PhaseAfter, SameTargets, RowOK, SubtreesDisjoint, ClaimsOK, DraftsOK;
  }

  lemma ThreadsAndDomainStay(s: State, step: Step)
    requires Inv(s) && Enabled(s, step)
    ensures forall t | t in After(s, step).threads :: t.operation in After(s, step).rows
    ensures After(s, step).domain <= After(s, step).rows.Keys
  {
    hide Enabled, After, Effect;
    StepHasEffect(s, step);
    ThreadsAndDomainStayBy(s, step, After(s, step));
  }

  // ---- drafts --------------------------------------------------------------------------------

  /** Nobody takes the parking place of a measured target. */
  lemma DraftedParkingStaysFree(s: State, step: Step, t: Thread, i: nat)
    requires Inv(s) && Enabled(s, step) && t in s.drafts && t.operation !in s.rows && i < |s.drafts[t]|
    ensures Parking(s.drafts[t][i], t.operation, i) !in After(s, step).fs
  {
    hide Enabled, After, Inv, Matches;
    var p := Parking(s.drafts[t][i], t.operation, i);
    DraftIsOK(s, t.operation, t.worker);
    if IsFsStep(step) {
      SubjectIsUnfinished(s, step);
      FsStepSparesDraft(s, step, t, i);
    } else if step.Write? {
      WriteSparesDraft(s, step, t, i);
    } else {
      OtherStepsKeepFiles(s, step);
    }
  }

  lemma FsStepSparesDraft(s: State, step: Step, t: Thread, i: nat)
    requires Inv(s) && Enabled(s, step) && IsFsStep(step) && t in s.drafts && t.operation !in s.rows && i < |s.drafts[t]|
    requires step.op in s.rows
    ensures SameAt(s, After(s, step), Parking(s.drafts[t][i], t.operation, i))
  {
    FsStepIsInside(s, step);
    hide Enabled, After, FsIndex, Inv, Matches;
    var k := FsIndex(s, step);
    var u := s.rows[step.op].targets[k];
    RowIsOK(s, step.op);
    DraftIsOK(s, t.operation, t.worker);
    hide RowOK;
    ParkingPlacesAreUnique(s.drafts[t][i].root, s.drafts[t][i].name, t.operation, i, u.root, u.name, step.op, k);
    FsStepIsLocal(s, step, Parking(s.drafts[t][i], t.operation, i));
  }

  lemma WriteSparesDraft(s: State, step: Step, t: Thread, i: nat)
    requires Enabled(s, step) && step.Write? && t in s.drafts && i < |s.drafts[t]|
    ensures SameAt(s, After(s, step), Parking(s.drafts[t][i], t.operation, i))
  {
    assert DraftedParking(s, Parking(s.drafts[t][i], t.operation, i));
  }

  lemma DraftsComeFromBy(s: State, step: Step, s': State, t: Thread)
    requires Effect(s, step, s') && t in s'.drafts && t.operation !in s'.rows
    ensures t.operation !in s.rows
    ensures (t in s.drafts && s'.drafts[t] == s.drafts[t])
            || (step.Measure? && t == Thread(step.op, step.who) && s'.drafts[t] == DraftOf(s, step.op, step.who) + [step.target])
  {
    hide Unclaimed, SameTargets, Originals;
  }

  lemma DraftsComeFrom(s: State, step: Step, t: Thread)
    requires Enabled(s, step) && t in After(s, step).drafts && t.operation !in After(s, step).rows
    ensures t.operation !in s.rows
    ensures (t in s.drafts && After(s, step).drafts[t] == s.drafts[t])
            || (step.Measure? && t == Thread(step.op, step.who) && After(s, step).drafts[t] == DraftOf(s, step.op, step.who) + [step.target])
  {
    hide Enabled, After, Effect;
    StepHasEffect(s, step);
    DraftsComeFromBy(s, step, After(s, step), t);
  }

  lemma MeasuredIsWellFormed(s: State, step: Step)
    requires Enabled(s, step) && step.Measure? && WellFormed(DraftOf(s, step.op, step.who))
    ensures WellFormed(DraftOf(s, step.op, step.who) + [step.target])
  {
    var draft := DraftOf(s, step.op, step.who);
    hide Matches;
    forall i | 0 <= i < |draft| ensures Original(draft[i]) != Original(step.target) {
      assert draft[i] in draft;
    }
  }

  lemma MeasuredIsOK(s: State, step: Step)
    requires Inv(s) && Enabled(s, step) && step.Measure?
    ensures DraftOK(After(s, step), Thread(step.op, step.who))
  {
    if Thread(step.op, step.who) in s.drafts {
      DraftIsOK(s, step.op, step.who);
    }
    hide Inv, Matches;
    MeasuredIsWellFormed(s, step);
  }

  lemma DraftsStayOK(s: State, step: Step)
    requires Inv(s) && Enabled(s, step)
    ensures DraftsOK(After(s, step))
  {
    hide Inv, Enabled, After;
    var s' := After(s, step);
    forall t | t in s'.drafts && t.operation !in s'.rows ensures DraftOK(s', t) {
      DraftsComeFrom(s, step, t);
      if step.Measure? && t == Thread(step.op, step.who) {
        MeasuredIsOK(s, step);
      } else {
        DraftIsOK(s, t.operation, t.worker);
        forall i | 0 <= i < |s.drafts[t]| ensures Parking(s.drafts[t][i], t.operation, i) !in s'.fs {
          DraftedParkingStaysFree(s, step, t, i);
        }
      }
    }
  }

  /** Every enabled step keeps the invariant, whatever the interleaving. */
  lemma StepKeepsInv(s: State, step: Step)
    requires Inv(s) && Enabled(s, step) && Careful(s, step)
    ensures Inv(After(s, step))
  {
    hide Enabled, After, RowOK, SubtreesDisjoint, ClaimsOK, DraftsOK, Alone, Current;
    var s' := After(s, step);
    ThreadsAndDomainStay(s, step);
    forall op | op in s'.rows ensures RowOK(s', op) {
      if HasSubject(step) && step.op == op {
        if step.Begin? {
          BeginKeeps(s, step);
        } else if step.Park? {
          ParkKeeps(s, step);
        } else if step.PutTargetBack? {
          PutTargetBackKeeps(s, step);
        } else if step.Reap? {
          ReapKeeps(s, step);
        } else if step.SavePark? {
          SaveParkKeeps(s, step);
        } else if step.SaveDetached? {
          SaveDetachedKeeps(s, step);
        } else if step.Commit? {
          CommitKeeps(s, step);
        } else if step.SkipPark? {
          SkipParkKeeps(s, step);
        } else if step.SaveRestored? {
          SaveRestoredKeeps(s, step);
        } else if step.SaveRolledBack? {
          SaveRolledBackKeeps(s, step);
        } else if step.SkipPutBack? {
          SkipPutBackKeeps(s, step);
        } else if step.SaveReaped? {
          SaveReapedKeeps(s, step);
        } else if step.SaveFinalized? {
          SaveFinalizedKeeps(s, step);
        } else if step.SkipReap? {
          SkipReapKeeps(s, step);
        } else if step.Abandon? {
          AbandonKeeps(s, step);
        } else {
          ClaimKeeps(s, step);
        }
      } else {
        RowsComeFromBegin(s, step, op);
        OthersKeep(s, step, op);
      }
    }
    SubtreesStayDisjoint(s, step);
    ClaimsStayExact(s, step);
    DraftsStayOK(s, step);
  }

  /** Publishing is safe exactly when every target still stands where it was measured. */
  lemma PublicationKeepsInvIffCurrent(s: State, step: Step)
    requires Inv(s) && Enabled(s, step) && step.Begin?
    ensures Inv(After(s, step)) <==> Current(s, step)
  {
    hide Inv, Enabled, After, Current;
    if Current(s, step) {
      NotAClaim(s, step);
      StepKeepsInv(s, step);
    }
    if Inv(After(s, step)) {
      PublishedStands(s, step);
    }
  }

  lemma NotAClaim(s: State, step: Step)
    requires !IsClaim(step)
    ensures Alone(s, step)
  {
  }

  lemma PublishedStands(s: State, step: Step)
    requires Inv(s) && Enabled(s, step) && step.Begin? && Inv(After(s, step))
    ensures Current(s, step)
  {
    var s', op := After(s, step), step.op;
    DraftIsOK(s, op, step.who);
    RowIsOK(s', op);
    hide Inv;
    forall t | t in step.targets ensures Stands(s, t) {
      var i :| 0 <= i < |step.targets| && step.targets[i] == t;
      assert AtOrigin(s', op, i) || InTrash(s', op, i);
    }
  }
}
