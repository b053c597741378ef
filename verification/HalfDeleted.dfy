/** A recursive deletion that stops part of the way. The journal fails closed: if a file is missing,
    the operation stays committed for good, nobody can delete the rest or call it finalized, and
    what is left stays where it is. */
module HalfDeleted {

  import opened Wrappers
  import opened StoragePaths
  import opened StorageTree
  import opened MaintenanceModel
  import opened MaintenanceSafety
  import opened MaintenanceHistory
  import opened MaintenanceRuns

  /** The place that the deletion was working on. */
  function Remains(s: State, op: Id, i: nat): Path
    requires op in s.rows && i < |s.rows[op].targets|
  {
    Parking(s.rows[op].targets[i], op, i)
  }

  /** What `finalize` tests before it deletes a target. */
  predicate CanReap(s: State, op: Id, who: Worker) {
    At(s, op, who) && PcOf(s, op, who).Reaping? &&
    var i := PcOf(s, op, who).next;
    i < |s.rows[op].targets| && Original(s.rows[op].targets[i]) !in s.fs
    && Remains(s, op, i) in s.fs && Matches(s.rows[op].targets[i], s.fs[Remains(s, op, i)])
  }

  lemma CanReapIsTheGuard(s: State, op: Id, who: Worker)
    ensures CanReap(s, op, who) <==> Enabled(s, Reap(op, who))
  {
  }

  /** The deletion of a thread's next target has stopped with part of the tree left, by a failure or
      with its process: the thread is gone. */
  function Interrupted(s: State, op: Id, who: Worker, left: Tree): State
    requires CanReap(s, op, who)
  {
    var place := Remains(s, op, PcOf(s, op, who).next);
    Done(s, op, who).(fs := s.fs[place := s.fs[place].(tree := left)])
  }

  /** A committed operation whose `i`-th target is in quarantine and no longer what was recorded. */
  ghost predicate Stuck(s: State, op: Id, i: nat) {
    && op in s.rows && i < |s.rows[op].targets| && s.rows[op].phase == Committed && op in s.domain
    && (forall o | o in s.rows :: TargetsOK(s.rows[o])) && DraftsWellFormed(s)
    && Remains(s, op, i) in s.fs && !Matches(s.rows[op].targets[i], s.fs[Remains(s, op, i)])
    && (forall w | Thread(op, w) in s.threads :: NotBeyond(s.threads[Thread(op, w)].pc, i))
  }

  ghost predicate DraftsWellFormed(s: State) {
    forall t | t in s.drafts && t.operation !in s.rows :: WellFormed(s.drafts[t])
  }

  /** A deleting thread that has not got past target `i`. */
  predicate NotBeyond(pc: Pc, i: nat) {
    (pc.Reaping? && pc.next <= i) || (pc.Reaped? && pc.at < i)
  }

  lemma InterruptedPlaces(s: State, op: Id, who: Worker, left: Tree, o: Id, j: nat)
    requires Inv(s) && CanReap(s, op, who) && o in s.rows && j < |s.rows[o].targets|
    requires o != op || j != PcOf(s, op, who).next
    ensures Unfinished(s.rows[o]) ==> SameAt(s, Interrupted(s, op, who, left), Original(s.rows[o].targets[j]))
    ensures SameAt(s, Interrupted(s, op, who, left), Parking(s.rows[o].targets[j], o, j))
  {
    hide Inv, Matches, PlacesOK, ThreadsOK;
    RowIsOK(s, op);
    RowIsOK(s, o);
    OnlyThread(s, op, who, who);
    PlacesApart(s, o, j, op, PcOf(s, op, who).next);
    PlacesApart(s, op, PcOf(s, op, who).next, o, j);
    SubtreesAre(s);
  }

  lemma SubtreesAre(s: State)
    requires Inv(s)
    ensures SubtreesDisjoint(s)
  {
  }

  lemma InterruptedOthers(s: State, op: Id, who: Worker, left: Tree, o: Id)
    requires Inv(s) && CanReap(s, op, who) && o in s.rows && o != op
    ensures RowOK(Interrupted(s, op, who, left), o)
  {
    hide Inv, CanReap, Matches, Interrupted;
    var s' := Interrupted(s, op, who, left);
    InterruptedShape(s, op, who, left);
    RowIsOK(s, o);
    hide RowOK;
    forall j | 0 <= j < |s.rows[o].targets|
      ensures Unfinished(s.rows[o]) ==> SameAt(s, s', Original(s.rows[o].targets[j]))
      ensures SameAt(s, s', Parking(s.rows[o].targets[j], o, j))
    {
      InterruptedPlaces(s, op, who, left, o, j);
    }
    RowFrame(s, s', o);
  }

  lemma InterruptedShape(s: State, op: Id, who: Worker, left: Tree)
    requires CanReap(s, op, who)
    ensures var s' := Interrupted(s, op, who, left);
            && s'.rows == s.rows && s'.claims == s.claims && s'.domain == s.domain && s'.live == s.live && s'.drafts == s.drafts
            && s'.threads == s.threads - {Thread(op, who)} && s'.fs.Keys == s.fs.Keys
  {
  }

  /** The operation itself, when nothing that counts is missing. */
  lemma NobodyLeft(s: State, op: Id, who: Worker, left: Tree, w: Worker)
    requires Inv(s) && CanReap(s, op, who)
    ensures Thread(op, w) !in Interrupted(s, op, who, left).threads
  {
    hide CanReap, Interrupted;
    AtReaping(s, op, who);
    InterruptedShape(s, op, who, left);
    if Thread(op, w) in s.threads {
      OnlyThread(s, op, who, w);
    }
  }

  lemma StillInTrash(s: State, op: Id, who: Worker, left: Tree)
    requires CanReap(s, op, who) && TargetsOK(s.rows[op])
    requires Bytes(left) == s.rows[op].targets[PcOf(s, op, who).next].bytes && Files(left) == s.rows[op].targets[PcOf(s, op, who).next].files
    ensures op in Interrupted(s, op, who, left).rows && InTrash(Interrupted(s, op, who, left), op, PcOf(s, op, who).next)
  {
    OwnPlacesApart(s, op, PcOf(s, op, who).next);
  }

  lemma InterruptedOwn(s: State, op: Id, who: Worker, left: Tree)
    requires Inv(s) && CanReap(s, op, who)
    requires Bytes(left) == s.rows[op].targets[PcOf(s, op, who).next].bytes && Files(left) == s.rows[op].targets[PcOf(s, op, who).next].files
    ensures RowOK(Interrupted(s, op, who, left), op)
  {
    hide Inv, CanReap, Interrupted, InTrash, Gone, Matches, Original, Parking;
    AtReaping(s, op, who);
    var s', i := Interrupted(s, op, who, left), PcOf(s, op, who).next;
    InterruptedShape(s, op, who, left);
    RowIsOK(s, op);
    OnlyThread(s, op, who, who);
    StillInTrash(s, op, who, left);
    forall w ensures Thread(op, w) !in s'.threads {
      NobodyLeft(s, op, who, left, w);
    }
    forall j | 0 <= j < |s.rows[op].targets| ensures InTrash(s', op, j) || Gone(s', op, j) {
      if j != i {
        InterruptedPlaces(s, op, who, left, op, j);
        PlaceFollows(s, s', op, j);
        assert InTrash(s, op, j) || Gone(s, op, j);
      }
    }
  }

  lemma PlaceFollows(s: State, s': State, op: Id, j: nat)
    requires op in s.rows && s'.rows == s.rows && j < |s.rows[op].targets|
    requires SameAt(s, s', Original(s.rows[op].targets[j])) && SameAt(s, s', Parking(s.rows[op].targets[j], op, j))
    ensures (InTrash(s, op, j) <==> InTrash(s', op, j)) && (Gone(s, op, j) <==> Gone(s', op, j))
  {
  }

  /** What an interrupted removal leaves is safe to retry exactly when every file is still there. */
  lemma InterruptionIsSafeIffNoFileIsMissing(s: State, op: Id, who: Worker, trees: seq<Tree>)
    requires Inv(s) && CanReap(s, op, who) && PartialRemoval(trees)
    requires trees[0] == s.fs[Remains(s, op, PcOf(s, op, who).next)].tree
    ensures var s' := Interrupted(s, op, who, Last(trees));
            && (Contents(Last(trees)) == Contents(trees[0]) <==> Inv(s'))
            && (Contents(Last(trees)) != Contents(trees[0]) <==> Stuck(s', op, PcOf(s, op, who).next))
  {
    hide Inv, Stuck, Interrupted, CanReap, Contents;
    AtReaping(s, op, who);
    var s', i := Interrupted(s, op, who, Last(trees)), PcOf(s, op, who).next;
    RetryIsPossibleIffNoFileWasRemoved(trees);
    MatchedBefore(s, op, who);
    if Contents(Last(trees)) == Contents(trees[0]) {
      InterruptedOwn(s, op, who, Last(trees));
      KeptInv(s, op, who, Last(trees));
    } else {
      InterruptedIsStuck(s, op, who, Last(trees));
    }
    if Stuck(s', op, i) {
      StuckIsNotSafe(s', op, i);
    }
  }

  lemma AtReaping(s: State, op: Id, who: Worker)
    requires CanReap(s, op, who)
    ensures At(s, op, who) && PcOf(s, op, who).Reaping? && PcOf(s, op, who).next < |s.rows[op].targets|
    ensures Remains(s, op, PcOf(s, op, who).next) in s.fs
  {
  }

  lemma MatchedBefore(s: State, op: Id, who: Worker)
    requires CanReap(s, op, who)
    ensures var i := PcOf(s, op, who).next;
            Matches(s.rows[op].targets[i], s.fs[Remains(s, op, i)])
  {
  }

  lemma SameDrafts(s: State, s': State)
    requires Inv(s) && s'.rows == s.rows && s'.drafts == s.drafts && s'.fs.Keys == s.fs.Keys
    ensures DraftsOK(s')
  {
    forall t | t in s'.drafts && t.operation !in s'.rows ensures DraftOK(s', t) {
      DraftIsOK(s, t.operation, t.worker);
    }
  }

  lemma KeptInv(s: State, op: Id, who: Worker, left: Tree)
    requires Inv(s) && CanReap(s, op, who) && RowOK(Interrupted(s, op, who, left), op)
    ensures Inv(Interrupted(s, op, who, left))
  {
    hide CanReap, Interrupted, RowOK;
    var s' := Interrupted(s, op, who, left);
    InterruptedShape(s, op, who, left);
    forall o | o in s'.rows ensures RowOK(s', o) {
      if o != op {
        InterruptedOthers(s, op, who, left, o);
      }
    }
    SameDrafts(s, s');
  }

  lemma InterruptedIsStuck(s: State, op: Id, who: Worker, left: Tree)
    requires Inv(s) && CanReap(s, op, who)
    requires !Matches(s.rows[op].targets[PcOf(s, op, who).next], s.fs[Remains(s, op, PcOf(s, op, who).next)].(tree := left))
    ensures Stuck(Interrupted(s, op, who, left), op, PcOf(s, op, who).next)
  {
    hide Inv, CanReap, Interrupted, Matches, WellFormed, TargetsOK;
    AtReaping(s, op, who);
    var s', i := Interrupted(s, op, who, left), PcOf(s, op, who).next;
    InterruptedShape(s, op, who, left);
    InterruptedEntry(s, op, who, left);
    CommittedReaper(s, op, who);
    forall w ensures Thread(op, w) !in s'.threads {
      NobodyLeft(s, op, who, left, w);
    }
    forall o | o in s'.rows ensures TargetsOK(s'.rows[o]) {
      RowTargetsAreOK(s, o);
    }
    forall t | t in s'.drafts && t.operation !in s'.rows ensures WellFormed(s'.drafts[t]) {
      DraftIsOK(s, t.operation, t.worker);
    }
  }

  lemma InterruptedEntry(s: State, op: Id, who: Worker, left: Tree)
    requires CanReap(s, op, who)
    ensures var place := Remains(s, op, PcOf(s, op, who).next);
            place in Interrupted(s, op, who, left).fs && Interrupted(s, op, who, left).fs[place] == s.fs[place].(tree := left)
  {
  }

  lemma CommittedReaper(s: State, op: Id, who: Worker)
    requires Inv(s) && CanReap(s, op, who)
    ensures op in s.rows && s.rows[op].phase == Committed && op in s.domain
  {
    hide CanReap;
    AtReaping(s, op, who);
    OnlyThread(s, op, who, who);
    RowIsOK(s, op);
    hide Inv;
  }

  lemma RowTargetsAreOK(s: State, o: Id)
    requires Inv(s) && o in s.rows
    ensures TargetsOK(s.rows[o])
  {
    RowIsOK(s, o);
  }

  lemma CommittedPlace(s: State, op: Id, i: nat)
    requires Inv(s) && op in s.rows && i < |s.rows[op].targets| && s.rows[op].phase == Committed
    ensures InTrash(s, op, i) || Gone(s, op, i)
  {
    RowIsOK(s, op);
  }

  lemma StuckIsNotSafe(s: State, op: Id, i: nat)
    requires Stuck(s, op, i)
    ensures !Inv(s)
  {
    if Inv(s) {
      CommittedPlace(s, op, i);
      assert false;
    }
  }

  // ---- whatever happens afterwards ------------------------------------------------------------

  lemma NewRoots(s: State, step: Step)
    requires Enabled(s, step) && step.Begin? && DraftsWellFormed(s)
    ensures TargetsOK(After(s, step).rows[step.op])
  {
    BeginAfter(s, step);
    assert Thread(step.op, step.who).operation == step.op;
    hide After;
  }

  lemma DraftsStayWellFormed(s: State, step: Step)
    requires Enabled(s, step) && DraftsWellFormed(s)
    ensures DraftsWellFormed(After(s, step))
  {
    hide Enabled, After, WellFormed;
    var s' := After(s, step);
    forall t | t in s'.drafts && t.operation !in s'.rows ensures WellFormed(s'.drafts[t]) {
      DraftsComeFrom(s, step, t);
      if step.Measure? && t == Thread(step.op, step.who) {
        NothingIsWellFormed();
        assert t.operation == step.op && t.worker == step.who;
        MeasuredIsWellFormed(s, step);
      }
    }
  }

  lemma NothingIsWellFormed()
    ensures WellFormed([])
  {
  }

  lemma RootsStayProper(s: State, step: Step, o: Id)
    requires Enabled(s, step) && (forall p | p in s.rows :: TargetsOK(s.rows[p])) && DraftsWellFormed(s) && o in After(s, step).rows
    ensures TargetsOK(After(s, step).rows[o])
  {
    hide Enabled, After, DraftsWellFormed;
    if step.Begin? && o == step.op {
      NewRoots(s, step);
    } else {
      OldRow(s, step, o);
      TargetsAreStatic(s, step, o);
    }
  }

  lemma RemainsStay(s: State, step: Step, op: Id, i: nat)
    requires Enabled(s, step) && Stuck(s, op, i)
    ensures SameAt(s, After(s, step), Remains(s, op, i))
  {
    if IsFsStep(step) {
      FsSubject(s, step);
      hide Enabled, After;
      var k := FsIndex(s, step);
      if step.op == op {
        NotTheRemains(s, step, op, i);
      }
      PlacesApart(s, op, i, step.op, k);
      FsStepIsLocal(s, step, Remains(s, op, i));
    } else if step.Write? {
      WritesAvoid(s, step, op, i);
    } else {
      OtherStepsKeepFiles(s, step);
    }
  }

  lemma FsSubject(s: State, step: Step)
    requires Enabled(s, step) && IsFsStep(step)
    ensures step.op in s.rows && FsIndex(s, step) < |s.rows[step.op].targets|
  {
    hide Enabled, After, FsIndex;
    FsStepHasEffect(s, step);
  }

  lemma FsPc(s: State, step: Step)
    requires Enabled(s, step) && IsFsStep(step)
    ensures At(s, step.op, step.who)
    ensures step.Park? ==> PcOf(s, step.op, step.who).Staging?
    ensures step.PutTargetBack? ==> PcOf(s, step.op, step.who).Restoring?
    ensures step.Reap? ==> PcOf(s, step.op, step.who).Reaping?
    ensures !step.PutTargetBack? ==> FsIndex(s, step) == PcOf(s, step.op, step.who).next
  {
    hide Matches, Original, Parking;
  }

  lemma NotTheRemains(s: State, step: Step, op: Id, i: nat)
    requires Enabled(s, step) && IsFsStep(step) && Stuck(s, op, i) && step.op == op
    ensures FsIndex(s, step) != i
  {
    hide Enabled, After, FsIndex, TargetsOK, DraftsWellFormed;
    FsStepHasEffect(s, step);
    FsPc(s, step);
  }

  lemma StuckThread(s: State, op: Id, i: nat, w: Worker)
    requires Stuck(s, op, i) && Thread(op, w) in s.threads
    ensures NotBeyond(s.threads[Thread(op, w)].pc, i)
  {
    hide TargetsOK, DraftsWellFormed;
  }

  lemma DeleterStaysBehind(s: State, step: Step, op: Id, i: nat)
    requires Enabled(s, step) && HasSubject(step) && step.op == op && Stuck(s, op, i) && Thread(op, step.who) in After(s, step).threads
    ensures NotBeyond(After(s, step).threads[Thread(op, step.who)].pc, i)
  {
    hide Enabled, After, TargetsOK, DraftsWellFormed;
    StuckIsNotBegun(s, step, op, i);
    if IsClaim(step) {
      ClaimOfAStuckOne(s, step, i);
    } else {
      StepHasEffect(s, step);
      StuckThread(s, op, i, step.who);
      if step.Reap? {
        NotTheRemains(s, step, op, i);
      }
      DeleterGoesOn(s, step, i);
    }
  }

  lemma ClaimOfAStuckOne(s: State, step: Step, i: nat)
    requires Enabled(s, step) && IsClaim(step) && Stuck(s, step.op, i) && Thread(step.op, step.who) in After(s, step).threads
    ensures NotBeyond(After(s, step).threads[Thread(step.op, step.who)].pc, i)
  {
    hide CanClaim, TargetsOK, DraftsWellFormed, Receipts;
  }

  lemma DeleterGoesOn(s: State, step: Step, i: nat)
    requires Enabled(s, step) && HasSubject(step) && !step.Begin? && !IsClaim(step) && At(s, step.op, step.who)
    requires Stuck(s, step.op, i) && NotBeyond(PcOf(s, step.op, step.who), i) && (step.Reap? ==> FsIndex(s, step) != i)
    requires Thread(step.op, step.who) in After(s, step).threads
    ensures NotBeyond(After(s, step).threads[Thread(step.op, step.who)].pc, i)
  {
    OnlyDeletersSteps(s, step, i);
    hide TargetsOK, DraftsWellFormed, Receipts, Receipted, Renaming;
  }

  lemma OnlyDeletersSteps(s: State, step: Step, i: nat)
    requires Enabled(s, step) && HasSubject(step) && !step.Begin? && !IsClaim(step) && At(s, step.op, step.who)
    requires Stuck(s, step.op, i) && NotBeyond(PcOf(s, step.op, step.who), i)
    ensures step.Reap? || step.SkipReap? || step.SaveReaped? || step.Abandon?
  {
    hide TargetsOK, DraftsWellFormed, Matches, CommitAccepts;
  }

  lemma ThreadsStayBehind(s: State, step: Step, op: Id, i: nat, w: Worker)
    requires Enabled(s, step) && Stuck(s, op, i) && Thread(op, w) in After(s, step).threads
    ensures NotBeyond(After(s, step).threads[Thread(op, w)].pc, i)
  {
    hide Enabled, After, Stuck;
    if HasSubject(step) && step.op == op && step.who == w {
      DeleterStaysBehind(s, step, op, i);
    } else {
      OtherThreadsStay(s, step, Thread(op, w));
      StuckThread(s, op, i, w);
    }
  }

  lemma StuckRow(s: State, op: Id, i: nat)
    requires Stuck(s, op, i)
    ensures op in s.rows && s.rows[op].phase == Committed && op in s.domain
  {
  }

  lemma StuckKeepsPhase(s: State, step: Step, i: nat)
    requires Enabled(s, step) && HasSubject(step) && !step.Begin? && Stuck(s, step.op, i)
    ensures PhaseAfter(step, Committed) == Committed
  {
    hide Enabled, After, Stuck;
    StepHasEffect(s, step);
    if !IsClaim(step) {
      StuckThread(s, step.op, i, step.who);
      OnlyDeletersSteps(s, step, i);
    }
  }

  lemma RowStaysCommitted(s: State, step: Step, op: Id, i: nat)
    requires Enabled(s, step) && Stuck(s, op, i)
    ensures op in After(s, step).rows && After(s, step).rows[op].phase == Committed && op in After(s, step).domain
  {
    hide Enabled, After, Stuck;
    StuckRow(s, op, i);
    if HasSubject(step) && step.op == op {
      PhaseOfSubject(s, step);
      StuckKeepsPhase(s, step, i);
    } else {
      OthersKeepRow(s, step, op);
    }
  }

  /** No step of anyone, and no claim, gets a stuck operation any further. */
  lemma StepKeepsStuck(s: State, step: Step, op: Id, i: nat)
    requires Enabled(s, step) && Stuck(s, op, i)
    ensures Stuck(After(s, step), op, i) && Remains(After(s, step), op, i) == Remains(s, op, i)
    ensures After(s, step).fs[Remains(s, op, i)] == s.fs[Remains(s, op, i)]
  {
    hide Enabled, After, TargetsOK;
    var s' := After(s, step);
    RowStaysCommitted(s, step, op, i);
    StuckIsNotBegun(s, step, op, i);
    TargetsAreStatic(s, step, op);
    RemainsStay(s, step, op, i);
    forall o | o in s'.rows ensures TargetsOK(s'.rows[o]) {
      RootsStayProper(s, step, o);
    }
    DraftsStayWellFormed(s, step);
    forall w | Thread(op, w) in s'.threads ensures NotBeyond(s'.threads[Thread(op, w)].pc, i) {
      ThreadsStayBehind(s, step, op, i, w);
    }
  }

  lemma StuckIsNotBegun(s: State, step: Step, op: Id, i: nat)
    requires Enabled(s, step) && Stuck(s, op, i)
    ensures HasSubject(step) && step.op == op ==> !step.Begin?
  {
    hide TargetsOK, DraftsWellFormed, NoConflict;
  }

  /** For ever: the operation stays committed and unfinalized, what is left stays where it is, and the
      deletion of that target is refused to every thread that reaches it. No assumption about claims
      is needed. */
  lemma {:induction false} FailsClosed(states: seq<State>, steps: seq<Step>, from: nat, k: nat, op: Id, i: nat)
    requires Run(states, steps) && from <= k < |states| && Stuck(states[from], op, i)
    ensures Stuck(states[k], op, i)
    ensures var place := Remains(states[from], op, i);
            place == Remains(states[k], op, i) && states[k].fs[place] == states[from].fs[place]
    ensures forall w, until :: !Enabled(states[k], SaveFinalized(op, w, until))
    ensures forall w | At(states[k], op, w) && PcOf(states[k], op, w) == Reaping(i) ::
              !Enabled(states[k], Reap(op, w)) && !Enabled(states[k], SkipReap(op, w))
  {
    hide Enabled, After, TargetsOK, Stuck, Remains;
    if from < k {
      FailsClosed(states, steps, from, k - 1, op, i);
      StepKeepsStuck(states[k - 1], steps[k - 1], op, i);
    }
    StuckRefuses(states[k], op, i);
  }

  lemma StuckRefuses(s: State, op: Id, i: nat)
    requires Stuck(s, op, i)
    ensures forall w, until :: !Enabled(s, SaveFinalized(op, w, until))
    ensures forall w | At(s, op, w) && PcOf(s, op, w) == Reaping(i) :: !Enabled(s, Reap(op, w)) && !Enabled(s, SkipReap(op, w))
  {
    hide TargetsOK;
  }
}
