/** Runs of the journal, and what a publication may rely on. `begin` measures its targets before the
    transaction that publishes them, and that transaction tests only what other operations own: this
    module says exactly when the targets are still there. */
module MaintenanceHistory {

  import opened Wrappers
  import opened StoragePaths
  import opened StorageTree
  import opened MaintenanceModel
  import opened MaintenanceSafety

  /** `states[k + 1]` results from `states[k]` by `steps[k]`. */
  ghost predicate Run(states: seq<State>, steps: seq<Step>) {
    && |states| == |steps| + 1
    && forall k | 0 <= k < |steps| :: Enabled(states[k], steps[k]) && states[k + 1] == After(states[k], steps[k])
  }

  /** Every claim is made alone. */
  ghost predicate AllAlone(states: seq<State>, steps: seq<Step>)
    requires |states| == |steps| + 1
  {
    forall k | 0 <= k < |steps| :: Alone(states[k], steps[k])
  }

  /** Every claim is made alone, and every publication is of targets that still stand. */
  ghost predicate Assumed(states: seq<State>, steps: seq<Step>)
    requires |states| == |steps| + 1
  {
    forall k | 0 <= k < |steps| :: Careful(states[k], steps[k])
  }

  predicate Fresh(s: State) {
    s.rows == map[] && s.claims == map[] && s.threads == map[] && s.drafts == map[] && s.domain == {}
  }

  lemma FreshIsSafe(s: State)
    requires Fresh(s)
    ensures Inv(s)
  {
  }

  lemma {:induction false} RunKeepsInv(states: seq<State>, steps: seq<Step>, k: nat)
    requires Run(states, steps) && Assumed(states, steps) && Inv(states[0]) && k < |states|
    ensures Inv(states[k])
  {
    hide Inv, Enabled, After, Careful;
    if k > 0 {
      RunKeepsInv(states, steps, k - 1);
      StepKeepsInv(states[k - 1], steps[k - 1]);
    }
  }

  lemma {:induction false} CarefulStepsKeepInv(states: seq<State>, steps: seq<Step>, from: nat, k: nat)
    requires Run(states, steps) && from <= k < |states| && Inv(states[from])
    requires forall j | from <= j < k :: Careful(states[j], steps[j])
    ensures Inv(states[k])
  {
    hide Inv, Enabled, After, Careful;
    if from < k {
      CarefulStepsKeepInv(states, steps, from, k - 1);
      StepKeepsInv(states[k - 1], steps[k - 1]);
    }
  }

  // ---- between measurement and publication --------------------------------------------------

  /** Step `m` measured the `i`-th target of a draft, and the draft is still there at moment `k`. */
  ghost predicate MeasuredAt(states: seq<State>, steps: seq<Step>, m: nat, k: nat, op: Id, who: Worker, i: nat)
    requires |states| == |steps| + 1
  {
    && m < k <= |steps| && steps[m].Measure? && steps[m].op == op && steps[m].who == who
    && i == |DraftOf(states[m], op, who)|
    && forall j | m < j <= k :: i < |DraftOf(states[j], op, who)| && DraftOf(states[j], op, who)[i] == steps[m].target
  }

  /** An operation with a target at this path has committed between two moments. */
  ghost predicate Overtaken(states: seq<State>, steps: seq<Step>, m: nat, k: nat, p: Path)
    requires |states| == |steps| + 1 && k <= |steps|
  {
    exists j | m <= j < k :: CommitsAt(states[j], steps[j], p)
  }

  predicate CommitsAt(s: State, step: Step, p: Path) {
    step.Commit? && step.op in s.rows && p in Originals(s.rows[step.op].targets)
  }

  ghost predicate Written(steps: seq<Step>, m: nat, k: nat, p: Path)
    requires k <= |steps|
  {
    exists j | m <= j < k :: steps[j].Write? && steps[j].path == p
  }

  /** An uncommitted operation has the measured object in quarantine. */
  ghost predicate HeldBy(s: State, t: Target, o: Id, x: nat) {
    && o in s.rows && x < |s.rows[o].targets| && (s.rows[o].phase == Intent || s.rows[o].phase == Detached)
    && Original(s.rows[o].targets[x]) == Original(t) && InTrash(s, o, x)
    && Matches(t, s.fs[Parking(s.rows[o].targets[x], o, x)])
  }

  ghost predicate Held(s: State, t: Target) { exists o, x: nat :: HeldBy(s, t, o, x) }

  /** The path is empty, and only committed operations still have it. */
  ghost predicate Departed(s: State, p: Path) {
    p !in s.fs && forall o | o in s.rows && Unfinished(s.rows[o]) && p in Originals(s.rows[o].targets) :: s.rows[o].phase == Committed
  }

  lemma OriginalIsNoParking(t: Target, u: Target, o: Id, x: nat)
    requires ProperRoot(t.root)
    ensures Parking(u, o, x) != Original(t)
  {
    ParkingPlacesAreUnique(u.root, u.name, o, x, t.root, t.name, 0, 0);
  }

  lemma StandingStep(s: State, step: Step, t: Target)
    requires Inv(s) && Enabled(s, step) && ProperRoot(t.root) && Stands(s, t)
    requires !(step.Write? && step.path == Original(t))
    ensures Stands(After(s, step), t) || Held(After(s, step), t)
  {
    hide Inv, Enabled, After, Held;
    if IsFsStep(step) {
      StandingMove(s, step, t);
    } else if step.Write? {
      WriteIsLocal(s, step, Original(t));
    } else {
      OtherStepsKeepFiles(s, step);
    }
  }

  lemma StandingMove(s: State, step: Step, t: Target)
    requires Inv(s) && Enabled(s, step) && IsFsStep(step) && ProperRoot(t.root) && Stands(s, t)
    ensures Stands(After(s, step), t) || Held(After(s, step), t)
  {
    hide Inv, Enabled, After, FsIndex, Held;
    FsSubjectOf(s, step);
    FsStepHasEffect(s, step);
    var k := FsIndex(s, step);
    var u := s.rows[step.op].targets[k];
    OriginalIsNoParking(t, u, step.op, k);
    if Original(u) == Original(t) {
      assert step.Park?;
      ParkedIsHeld(s, step, t);
    } else {
      FsStepIsLocal(s, step, Original(t));
    }
  }

  lemma FsSubjectOf(s: State, step: Step)
    requires Inv(s) && Enabled(s, step) && IsFsStep(step)
    ensures step.op in s.rows && FsIndex(s, step) < |s.rows[step.op].targets| && Unfinished(s.rows[step.op])
    ensures step.Park? ==> s.rows[step.op].phase == Intent
    ensures step.PutTargetBack? ==> s.rows[step.op].phase == Intent || s.rows[step.op].phase == Detached
    ensures step.Reap? ==> s.rows[step.op].phase == Committed
    ensures TargetsOK(s.rows[step.op])
  {
    hide Enabled, After, FsIndex;
    FsStepHasEffect(s, step);
    RowIsOK(s, step.op);
    OnlyThread(s, step.op, step.who, step.who);
    hide Inv;
    FsPhase(s, step);
  }

  lemma FsPhase(s: State, step: Step)
    requires Enabled(s, step) && IsFsStep(step) && At(s, step.op, step.who) && PcOK(s, step.op, PcOf(s, step.op, step.who))
    ensures step.Park? ==> s.rows[step.op].phase == Intent
    ensures step.PutTargetBack? ==> s.rows[step.op].phase == Intent || s.rows[step.op].phase == Detached
    ensures step.Reap? ==> s.rows[step.op].phase == Committed
  {
    hide Matches, Original, Parking, InTrash, AtOrigin, Gone;
  }

  lemma ParkedIsHeld(s: State, step: Step, t: Target)
    requires Enabled(s, step) && step.Park? && step.op in s.rows && TargetsOK(s.rows[step.op]) && s.rows[step.op].phase == Intent
    requires FsIndex(s, step) < |s.rows[step.op].targets|
    requires Stands(s, t) && Original(s.rows[step.op].targets[FsIndex(s, step)]) == Original(t)
    ensures Held(After(s, step), t)
  {
    hide Enabled, After, FsIndex;
    FsStepHasEffect(s, step);
    var k := FsIndex(s, step);
    OwnPlacesApart(s, step.op, k);
    assert HeldBy(After(s, step), t, step.op, k);
  }

  /** While an operation holds the object: it puts it back, commits, or goes on holding it. */
  lemma HoldingStep(s: State, step: Step, t: Target)
    requires Inv(s) && Enabled(s, step) && Inv(After(s, step)) && ProperRoot(t.root) && Held(s, t)
    ensures CommitsAt(s, step, Original(t)) ==> Departed(After(s, step), Original(t))
    ensures !CommitsAt(s, step, Original(t)) ==> Stands(After(s, step), t) || Held(After(s, step), t)
  {
    hide Inv, Enabled, After, Departed, HeldBy, Stands, CommitsAt;
    var o, x :| HeldBy(s, t, o, x);
    HeldFacts(s, t, o, x);
    if CommitsAt(s, step, Original(t)) {
      CommitDeparts(s, step, t, o, x);
    } else if !HasSubject(step) || step.op != o {
      OthersKeepHolding(s, step, t, o, x);
    } else if IsFsStep(step) {
      OwnMoveOfHeld(s, step, t, o, x);
    } else {
      OwnSaveOfHeld(s, step, t, o, x);
    }
  }

  lemma HeldFacts(s: State, t: Target, o: Id, x: nat)
    requires HeldBy(s, t, o, x)
    ensures o in s.rows && x < |s.rows[o].targets| && Unfinished(s.rows[o]) && Original(s.rows[o].targets[x]) == Original(t)
    ensures Original(t) !in s.fs && Original(t) in Originals(s.rows[o].targets)
  {
    assert s.rows[o].targets[x] in s.rows[o].targets;
  }

  lemma IndexOf(targets: seq<Target>, p: Path) returns (i: nat)
    requires p in Originals(targets)
    ensures i < |targets| && Original(targets[i]) == p
  {
    var t :| t in targets && Original(t) == p;
    i :| 0 <= i < |targets| && targets[i] == t;
  }

  /** Two unfinished operations never have the same original path. */
  lemma OneHolder(s: State, p: Path, a: Id, b: Id)
    requires Inv(s) && a in s.rows && b in s.rows && Unfinished(s.rows[a]) && Unfinished(s.rows[b])
    requires p in Originals(s.rows[a].targets) && p in Originals(s.rows[b].targets)
    ensures a == b
  {
    assert SubtreesDisjoint(s);
    hide Inv, Overlap, Originals, Original;
    var i := IndexOf(s.rows[a].targets, p);
    var j := IndexOf(s.rows[b].targets, p);
    OverlapIsContainment(p, p);
  }

  lemma CommitFacts(s: State, step: Step)
    requires Enabled(s, step) && step.Commit?
    ensures step.op in s.rows && Unfinished(s.rows[step.op])
    ensures After(s, step).fs == s.fs && After(s, step).rows == s.rows[step.op := s.rows[step.op].(phase := Committed)]
  {
    hide CanClaim;
  }

  lemma CommitDeparts(s: State, step: Step, t: Target, o: Id, x: nat)
    requires Inv(s) && Enabled(s, step) && HeldBy(s, t, o, x) && CommitsAt(s, step, Original(t))
    ensures Departed(After(s, step), Original(t))
  {
    hide Inv, Enabled, After, HeldBy;
    var s', p := After(s, step), Original(t);
    HeldFacts(s, t, o, x);
    CommitFacts(s, step);
    OneHolder(s, p, o, step.op);
    forall a | a in s'.rows && Unfinished(s'.rows[a]) && p in Originals(s'.rows[a].targets) ensures s'.rows[a].phase == Committed {
      if a != step.op {
        OneHolder(s, p, a, step.op);
      }
    }
  }

  lemma OthersKeepHolding(s: State, step: Step, t: Target, o: Id, x: nat)
    requires Inv(s) && Enabled(s, step) && HeldBy(s, t, o, x) && (HasSubject(step) ==> step.op != o)
    ensures Held(After(s, step), t)
  {
    hide Inv, Enabled, After;
    OthersKeepRow(s, step, o);
    OthersKeepPlaces(s, step, o);
    assert SameAt(s, After(s, step), Original(s.rows[o].targets[x])) && SameAt(s, After(s, step), Parking(s.rows[o].targets[x], o, x));
    assert HeldBy(After(s, step), t, o, x);
  }

  lemma OwnMoveOfHeld(s: State, step: Step, t: Target, o: Id, x: nat)
    requires Inv(s) && Enabled(s, step) && IsFsStep(step) && step.op == o && HeldBy(s, t, o, x)
    ensures Stands(After(s, step), t) || Held(After(s, step), t)
  {
    hide Inv, Enabled, After, FsIndex, Held;
    FsSubjectOf(s, step);
    if FsIndex(s, step) == x {
      OwnPlacesApart(s, o, x);
      PutBackStands(s, step, t, x);
    } else {
      SiblingIsHeld(s, step, t, x);
    }
  }

  lemma PutBackStands(s: State, step: Step, t: Target, x: nat)
    requires Enabled(s, step) && IsFsStep(step) && HeldBy(s, t, step.op, x) && FsIndex(s, step) == x
    requires step.Reap? ==> s.rows[step.op].phase == Committed
    ensures Stands(After(s, step), t)
  {
    hide Enabled, After, FsIndex;
    FsStepHasEffect(s, step);
  }

  lemma SiblingIsHeld(s: State, step: Step, t: Target, x: nat)
    requires Inv(s) && Enabled(s, step) && IsFsStep(step) && HeldBy(s, t, step.op, x) && FsIndex(s, step) != x
    ensures Held(After(s, step), t)
  {
    FsSubjectOf(s, step);
    hide Inv, Enabled, After;
    FsStepIsOnRows(s, step);
    PlacesApart(s, step.op, x, step.op, FsIndex(s, step));
    FsStepIsLocal(s, step, Original(s.rows[step.op].targets[x]));
    FsStepIsLocal(s, step, Parking(s.rows[step.op].targets[x], step.op, x));
    assert HeldBy(After(s, step), t, step.op, x);
  }

  lemma FsStepIsOnRows(s: State, step: Step)
    requires Enabled(s, step) && IsFsStep(step)
    ensures After(s, step).rows == s.rows
  {
    hide Enabled, After;
    FsStepHasEffect(s, step);
  }

  lemma OwnSaveOfHeld(s: State, step: Step, t: Target, o: Id, x: nat)
    requires Inv(s) && Enabled(s, step) && HasSubject(step) && step.op == o && !IsFsStep(step) && HeldBy(s, t, o, x)
    requires Inv(After(s, step)) && !CommitsAt(s, step, Original(t))
    ensures Held(After(s, step), t)
  {
    HeldFacts(s, t, o, x);
    NotBegun(s, step);
    hide Inv, Enabled, After, Matches, Original, Parking;
    var s' := After(s, step);
    TargetsAreStatic(s, step, o);
    OtherStepsKeepFiles(s, step);
    HolderIsUncommitted(s, step, t, o, x);
    HeldLater(s, s', t, o, x);
  }

  lemma NotBegun(s: State, step: Step)
    requires Enabled(s, step) && HasSubject(step) && step.op in s.rows
    ensures !step.Begin?
  {
    hide Enabled, After;
    StepHasEffect(s, step);
  }

  lemma HeldLater(s: State, s': State, t: Target, o: Id, x: nat)
    requires HeldBy(s, t, o, x) && s'.fs == s.fs && o in s'.rows && |s'.rows[o].targets| == |s.rows[o].targets|
    requires s'.rows[o].targets[x] == s.rows[o].targets[x].(receipt := s'.rows[o].targets[x].receipt)
    requires s'.rows[o].phase == Intent || s'.rows[o].phase == Detached
    ensures Held(s', t)
  {
    assert HeldBy(s', t, o, x);
  }

  lemma PhaseChanges(s: State, step: Step)
    requires Enabled(s, step) && HasSubject(step) && step.op in s.rows
    ensures step.op in After(s, step).rows
    ensures After(s, step).rows[step.op].phase == s.rows[step.op].phase || After(s, step).rows[step.op].phase == Detached
            || step.Commit? || step.SaveRolledBack? || step.SaveFinalized?
  {
    hide Enabled, After;
    PhaseOfSubject(s, step);
  }

  /** Nobody ends an operation that holds an uncommitted target. */
  lemma HolderDoesNotEnd(s: State, step: Step, t: Target, x: nat)
    requires Inv(s) && Enabled(s, step) && (step.SaveRolledBack? || step.SaveFinalized?)
    ensures !HeldBy(s, t, step.op, x)
  {
    EndOf(s, step);
    hide Inv, Enabled;
    if step.SaveRolledBack? && step.op in s.rows && x < |s.rows[step.op].targets| {
      assert AtOrigin(s, step.op, x);
    }
  }

  lemma EndOf(s: State, step: Step)
    requires Inv(s) && Enabled(s, step) && (step.SaveRolledBack? || step.SaveFinalized?)
    ensures step.op in s.rows
    ensures step.SaveRolledBack? ==> forall i | 0 <= i < |s.rows[step.op].targets| :: AtOrigin(s, step.op, i)
    ensures step.SaveRolledBack? ==> s.rows[step.op].phase == Intent || s.rows[step.op].phase == Detached
    ensures step.SaveFinalized? ==> s.rows[step.op].phase == Committed && forall i | 0 <= i < |s.rows[step.op].targets| :: Gone(s, step.op, i)
  {
    OnlyThread(s, step.op, step.who, step.who);
    hide Inv;
  }

  /** The holder neither ends nor commits by such a step. */
  lemma HolderIsUncommitted(s: State, step: Step, t: Target, o: Id, x: nat)
    requires Inv(s) && Enabled(s, step) && HasSubject(step) && step.op == o && !IsFsStep(step) && HeldBy(s, t, o, x)
    requires !CommitsAt(s, step, Original(t))
    ensures o in After(s, step).rows && (After(s, step).rows[o].phase == Intent || After(s, step).rows[o].phase == Detached)
  {
    hide Inv, Enabled, After, InTrash, Matches;
    HeldFacts(s, t, o, x);
    PhaseChanges(s, step);
    if step.SaveRolledBack? || step.SaveFinalized? {
      HolderDoesNotEnd(s, step, t, x);
    }
  }

  /** Once an operation has committed the path stays empty: nobody can put anything there. */
  lemma DepartedStep(s: State, step: Step, t: Target)
    requires Inv(s) && Enabled(s, step) && Current(s, step) && Inv(After(s, step)) && ProperRoot(t.root) && Departed(s, Original(t))
    requires !(step.Write? && step.path == Original(t))
    ensures Departed(After(s, step), Original(t))
  {
    hide Inv, Enabled, After;
    var s', p := After(s, step), Original(t);
    EmptyStays(s, step, t);
    forall o | o in s'.rows && Unfinished(s'.rows[o]) && p in Originals(s'.rows[o].targets) ensures s'.rows[o].phase == Committed {
      StillCommitted(s, step, p, o);
    }
  }

  lemma EmptyStays(s: State, step: Step, t: Target)
    requires Inv(s) && Enabled(s, step) && ProperRoot(t.root) && Departed(s, Original(t))
    requires !(step.Write? && step.path == Original(t))
    ensures Original(t) !in After(s, step).fs
  {
    hide Inv, Enabled, After, Held;
    if IsFsStep(step) {
      EmptyMove(s, step, t);
    } else if step.Write? {
      WriteIsLocal(s, step, Original(t));
    } else {
      OtherStepsKeepFiles(s, step);
    }
  }

  lemma EmptyMove(s: State, step: Step, t: Target)
    requires Inv(s) && Enabled(s, step) && IsFsStep(step) && ProperRoot(t.root) && Departed(s, Original(t))
    ensures Original(t) !in After(s, step).fs
  {
    hide Inv, Enabled, After, FsIndex;
    FsSubjectOf(s, step);
    FsStepHasEffect(s, step);
    var k := FsIndex(s, step);
    var u := s.rows[step.op].targets[k];
    OriginalIsNoParking(t, u, step.op, k);
    assert u in s.rows[step.op].targets;
  }

  lemma StillCommitted(s: State, step: Step, p: Path, o: Id)
    requires Inv(s) && Enabled(s, step) && Current(s, step) && Inv(After(s, step)) && Departed(s, p)
    requires o in After(s, step).rows && Unfinished(After(s, step).rows[o]) && p in Originals(After(s, step).rows[o].targets)
    ensures After(s, step).rows[o].phase == Committed
  {
    if step.Begin? && step.op == o {
      PublishedIsPresent(s, step, p);
    } else {
      hide Inv, Enabled, After, Originals;
      UnfinishedBefore(s, step, o);
      SameOriginals(s, step, o);
      CommittedStays(s, step, o);
    }
  }

  lemma PublishedIsPresent(s: State, step: Step, p: Path)
    requires Enabled(s, step) && step.Begin? && Current(s, step) && p in Originals(After(s, step).rows[step.op].targets)
    ensures p in s.fs
  {
    BeginAfter(s, step);
    hide Enabled, After;
    var u :| u in step.targets && Original(u) == p;
    assert Stands(s, u);
  }

  lemma SameOriginals(s: State, step: Step, o: Id)
    requires Enabled(s, step) && o in s.rows && (HasSubject(step) && step.op == o ==> !step.Begin?)
    ensures o in After(s, step).rows && Originals(After(s, step).rows[o].targets) == Originals(s.rows[o].targets)
  {
    hide Enabled, After;
    TargetsAreStatic(s, step, o);
    SameTargetsSameOriginals(s.rows[o].targets, After(s, step).rows[o].targets);
  }

  lemma SameTargetsSameOriginals(a: seq<Target>, b: seq<Target>)
    requires SameTargets(a, b)
    ensures Originals(a) == Originals(b)
  {
    forall p | p in Originals(a) ensures p in Originals(b) {
      var t :| t in a && Original(t) == p;
      var i :| 0 <= i < |a| && a[i] == t;
      assert b[i] in b && Original(b[i]) == p;
    }
    forall p | p in Originals(b) ensures p in Originals(a) {
      var t :| t in b && Original(t) == p;
      var i :| 0 <= i < |b| && b[i] == t;
      assert a[i] in a && Original(a[i]) == p;
    }
  }

  /** The durable decision of an operation is never taken back. */
  lemma CommittedStays(s: State, step: Step, o: Id)
    requires Inv(s) && Enabled(s, step) && Inv(After(s, step)) && o in s.rows && s.rows[o].phase == Committed
    requires o in After(s, step).rows
    ensures After(s, step).rows[o].phase == Committed || After(s, step).rows[o].phase == Finalized
  {
    DomainGrows(s, step);
    RowIsOK(s, o);
    RowIsOK(After(s, step), o);
    hide Inv, Enabled, After;
  }

  lemma DomainGrows(s: State, step: Step)
    requires Enabled(s, step)
    ensures s.domain <= After(s, step).domain
  {
  }

  /** Where a measured object is, as long as nobody else writes its path. */
  ghost predicate Whereabouts(s: State, t: Target, overtaken: bool) {
    if overtaken then Departed(s, Original(t)) else Stands(s, t) || Held(s, t)
  }

  lemma WhereaboutsStep(s: State, step: Step, t: Target, overtaken: bool)
    requires Inv(s) && Enabled(s, step) && Current(s, step) && Inv(After(s, step)) && ProperRoot(t.root)
    requires Whereabouts(s, t, overtaken) && !(step.Write? && step.path == Original(t))
    ensures Whereabouts(After(s, step), t, overtaken || CommitsAt(s, step, Original(t)))
  {
    hide Inv, Enabled, After, Departed, Held, Stands, CommitsAt;
    if overtaken {
      DepartedStep(s, step, t);
    } else if Held(s, t) {
      HoldingStep(s, step, t);
    } else {
      StandingStep(s, step, t);
      if CommitsAt(s, step, Original(t)) {
        CommitsOnlyWhenAway(s, step, t);
      }
    }
  }

  lemma CommitsOnlyWhenAway(s: State, step: Step, t: Target)
    requires Inv(s) && Enabled(s, step) && CommitsAt(s, step, Original(t))
    ensures !Stands(s, t)
  {
    OnlyThread(s, step.op, step.who, step.who);
    hide Inv;
    var u :| u in s.rows[step.op].targets && Original(u) == Original(t);
    var x :| 0 <= x < |s.rows[step.op].targets| && s.rows[step.op].targets[x] == u;
    assert InTrash(s, step.op, x);
  }

  lemma {:induction false} WhereaboutsOf(states: seq<State>, steps: seq<Step>, m: nat, k: nat, t: Target)
    requires Run(states, steps) && m <= k < |states| && ProperRoot(t.root) && Stands(states[m], t)
    requires forall j | m <= j <= k :: Inv(states[j])
    requires forall j | m <= j < k :: Current(states[j], steps[j])
    requires !Written(steps, m, k, Original(t))
    ensures Whereabouts(states[k], t, Overtaken(states, steps, m, k, Original(t)))
  {
    hide Inv, Enabled, After, Whereabouts, Current, CommitsAt, Stands;
    var p := Original(t);
    if m == k {
      StandingIsSomewhere(states[m], t);
    } else {
      NotWrittenBefore(steps, m, k, p);
      WhereaboutsOf(states, steps, m, k - 1, t);
      assert !(steps[k - 1].Write? && steps[k - 1].path == p);
      assert Inv(states[k]) && Inv(states[k - 1]);
      WhereaboutsStep(states[k - 1], steps[k - 1], t, Overtaken(states, steps, m, k - 1, p));
      OvertakenLater(states, steps, m, k, p);
    }
  }

  lemma StandingIsSomewhere(s: State, t: Target)
    requires Stands(s, t)
    ensures Whereabouts(s, t, false)
  {
  }

  lemma NotWrittenBefore(steps: seq<Step>, m: nat, k: nat, p: Path)
    requires m < k <= |steps| && !Written(steps, m, k, p)
    ensures !Written(steps, m, k - 1, p)
  {
    if j :| m <= j < k - 1 && steps[j].Write? && steps[j].path == p {
      assert Written(steps, m, k, p);
    }
  }

  lemma OvertakenLater(states: seq<State>, steps: seq<Step>, m: nat, k: nat, p: Path)
    requires |states| == |steps| + 1 && m < k <= |steps|
    ensures Overtaken(states, steps, m, k, p) <==> Overtaken(states, steps, m, k - 1, p) || CommitsAt(states[k - 1], steps[k - 1], p)
  {
    hide CommitsAt;
  }

  /** A target that was measured, and whose path nobody else wrote, stands at its publication exactly
      when no operation holding that path has committed since. */
  lemma StandsIffNotOvertaken(states: seq<State>, steps: seq<Step>, m: nat, k: nat, t: Target)
    requires Run(states, steps) && m <= k < |states| && ProperRoot(t.root) && Stands(states[m], t)
    requires forall j | m <= j <= k :: Inv(states[j])
    requires forall j | m <= j < k :: Current(states[j], steps[j])
    requires !Written(steps, m, k, Original(t))
    requires forall o | o in states[k].rows && Unfinished(states[k].rows[o]) :: Original(t) !in Originals(states[k].rows[o].targets)
    ensures Stands(states[k], t) <==> !Overtaken(states, steps, m, k, Original(t))
  {
    hide Inv, Enabled, After, Current, Overtaken, Run;
    WhereaboutsOf(states, steps, m, k, t);
    if o, x :| HeldBy(states[k], t, o, x) {
      HeldFacts(states[k], t, o, x);
      assert false;
    }
  }

  // ---- whole runs ----------------------------------------------------------------------------

  lemma DraftStepBy(s: State, step: Step, s': State, op: Id, who: Worker)
    requires Effect(s, step, s')
    ensures var before, after := DraftOf(s, op, who), DraftOf(s', op, who);
            after == before || after == [] || (step.Measure? && step.op == op && step.who == who && after == before + [step.target])
  {
  }

  lemma DraftStep(s: State, step: Step, op: Id, who: Worker)
    requires Enabled(s, step)
    ensures var before, after := DraftOf(s, op, who), DraftOf(After(s, step), op, who);
            after == before || after == [] || (step.Measure? && step.op == op && step.who == who && after == before + [step.target])
  {
    hide Enabled, After, Effect;
    StepHasEffect(s, step);
    DraftStepBy(s, step, After(s, step), op, who);
  }

  /** Whatever a draft has gained was measured by a step of the run. */
  lemma {:induction false} EveryDraftWasMeasured(states: seq<State>, steps: seq<Step>, from: nat, k: nat, op: Id, who: Worker, i: nat) returns (m: nat)
    requires Run(states, steps) && from <= k < |states| && DraftOf(states[from], op, who) == [] && i < |DraftOf(states[k], op, who)|
    ensures from <= m && MeasuredAt(states, steps, m, k, op, who, i)
  {
    hide Enabled, After, DraftOf;
    assert k > from;
    DraftStep(states[k - 1], steps[k - 1], op, who);
    if i < |DraftOf(states[k - 1], op, who)| {
      m := EveryDraftWasMeasured(states, steps, from, k - 1, op, who, i);
    } else {
      m := k - 1;
    }
  }

  lemma MeasuredStands(s: State, step: Step)
    requires Enabled(s, step) && step.Measure?
    ensures Stands(s, step.target) && ProperRoot(step.target.root)
    ensures Stands(After(s, step), step.target)
  {
  }

  /** Nobody has written what this publication measured. */
  ghost predicate UndisturbedAt(states: seq<State>, steps: seq<Step>, k: nat)
    requires |states| == |steps| + 1 && k < |steps| && steps[k].Begin?
  {
    forall m: nat, i: nat | MeasuredAt(states, steps, m, k, steps[k].op, steps[k].who, i) ::
      !Written(steps, m, k, Original(steps[m].target))
  }

  /** No operation holding a path that this publication measured has committed since. */
  ghost predicate TimelyAt(states: seq<State>, steps: seq<Step>, k: nat)
    requires |states| == |steps| + 1 && k < |steps| && steps[k].Begin?
  {
    forall m: nat, i: nat | MeasuredAt(states, steps, m, k, steps[k].op, steps[k].who, i) ::
      !Overtaken(states, steps, m, k, Original(steps[m].target))
  }

  ghost predicate Undisturbed(states: seq<State>, steps: seq<Step>)
    requires |states| == |steps| + 1
  {
    forall k | 0 <= k < |steps| && steps[k].Begin? :: UndisturbedAt(states, steps, k)
  }

  ghost predicate Timely(states: seq<State>, steps: seq<Step>)
    requires |states| == |steps| + 1
  {
    forall k | 0 <= k < |steps| && steps[k].Begin? :: TimelyAt(states, steps, k)
  }

  lemma NobodyHolds(s: State, step: Step, t: Target, o: Id)
    requires Enabled(s, step) && step.Begin? && t in step.targets && o in s.rows && Unfinished(s.rows[o])
    ensures Original(t) !in Originals(s.rows[o].targets)
  {
    assert NoConflict(s, step.targets);
    hide Enabled;
    OverlapIsContainment(Original(t), Original(t));
    var j :| 0 <= j < |step.targets| && step.targets[j] == t;
    forall u | u in s.rows[o].targets ensures Original(u) != Original(t) {
      var i :| 0 <= i < |s.rows[o].targets| && s.rows[o].targets[i] == u;
      assert !Overlap(Original(step.targets[j]), Original(s.rows[o].targets[i]));
    }
  }

  lemma PublishedDraft(s: State, step: Step)
    requires Enabled(s, step) && step.Begin?
    ensures step.targets == DraftOf(s, step.op, step.who)
  {
  }

  /** For one publication in a run that was careful before it. */
  lemma PublishedTargetStandsIff(states: seq<State>, steps: seq<Step>, k: nat, m: nat, i: nat)
    requires Run(states, steps) && k < |steps| && steps[k].Begin?
    requires MeasuredAt(states, steps, m, k, steps[k].op, steps[k].who, i)
    requires forall j | m <= j <= k :: Inv(states[j])
    requires forall j | m <= j < k :: Current(states[j], steps[j])
    requires !Written(steps, m, k, Original(steps[m].target))
    ensures i < |steps[k].targets| && steps[k].targets[i] == steps[m].target
    ensures Stands(states[k], steps[k].targets[i]) <==> !Overtaken(states, steps, m, k, Original(steps[m].target))
  {
    hide Inv, Enabled, After, Current, Overtaken, Written, Stands, Originals;
    PublishedDraft(states[k], steps[k]);
    MeasuredStands(states[m], steps[m]);
    var t := steps[m].target;
    forall o | o in states[k].rows && Unfinished(states[k].rows[o]) ensures Original(t) !in Originals(states[k].rows[o].targets) {
      NobodyHolds(states[k], steps[k], t, o);
    }
    StandsIffNotOvertaken(states, steps, m, k, t);
  }

  lemma PublicationIsCurrentIff(states: seq<State>, steps: seq<Step>, k: nat)
    requires Run(states, steps) && states[0].drafts == map[] && k < |steps| && steps[k].Begin?
    requires forall j | 0 <= j <= k :: Inv(states[j])
    requires forall j | 0 <= j < k :: Current(states[j], steps[j])
    requires UndisturbedAt(states, steps, k)
    ensures Current(states[k], steps[k]) <==> TimelyAt(states, steps, k)
  {
    hide Inv, Enabled, After, Overtaken, Written, Stands;
    var step := steps[k];
    forall m: nat, i: nat | MeasuredAt(states, steps, m, k, step.op, step.who, i)
      ensures i < |step.targets| && (Stands(states[k], step.targets[i]) <==> !Overtaken(states, steps, m, k, Original(steps[m].target)))
    {
      PublishedTargetStandsIff(states, steps, k, m, i);
    }
    if TimelyAt(states, steps, k) {
      forall t | t in step.targets ensures Stands(states[k], t) {
        PublishedIsDrafted(states, steps, k);
        var i :| 0 <= i < |step.targets| && step.targets[i] == t;
        var m := EveryDraftWasMeasured(states, steps, 0, k, step.op, step.who, i);
      }
    }
  }

  lemma PublishedIsDrafted(states: seq<State>, steps: seq<Step>, k: nat)
    requires Run(states, steps) && k < |steps| && steps[k].Begin?
    ensures steps[k].targets == DraftOf(states[k], steps[k].op, steps[k].who)
  {
    PublishedDraft(states[k], steps[k]);
  }

  /** In a run from an empty journal whose claims are made alone and whose publications nobody
      disturbs from outside, timely publications keep the invariant at every moment. */
  lemma {:induction false} TimelyRunKeepsInv(states: seq<State>, steps: seq<Step>, k: nat)
    requires Run(states, steps) && Fresh(states[0]) && AllAlone(states, steps) && Undisturbed(states, steps) && Timely(states, steps)
    requires k < |states|
    ensures forall j | 0 <= j <= k :: Inv(states[j])
    ensures forall j | 0 <= j < k :: Current(states[j], steps[j])
  {
    hide Inv, Enabled, After, Alone, Current, UndisturbedAt, TimelyAt;
    FreshHasNoDrafts(states[0]);
    if k == 0 {
      FreshIsSafe(states[0]);
    } else {
      TimelyRunKeepsInv(states, steps, k - 1);
      if steps[k - 1].Begin? {
        PublicationIsCurrentIff(states, steps, k - 1);
      } else {
        OnlyPublicationsMatter(states[k - 1], steps[k - 1]);
      }
      assert Careful(states[k - 1], steps[k - 1]);
      StepKeepsInv(states[k - 1], steps[k - 1]);
    }
  }

  lemma OnlyPublicationsMatter(s: State, step: Step)
    requires !step.Begin?
    ensures Current(s, step)
  {
  }

  /** The exact condition under which every publication of a run is safe: no operation holding a
      measured path has committed between its measurement and its publication. */
  lemma AssumedIffTimely(states: seq<State>, steps: seq<Step>)
    requires Run(states, steps) && Fresh(states[0]) && AllAlone(states, steps) && Undisturbed(states, steps)
    ensures Assumed(states, steps) <==> Timely(states, steps)
  {
    hide Inv, Enabled, After, Alone, Current, UndisturbedAt, TimelyAt, Fresh;
    if Timely(states, steps) {
      TimelyRunKeepsInv(states, steps, |steps|);
    }
    if Assumed(states, steps) {
      FreshIsSafe(states[0]);
      FreshHasNoDrafts(states[0]);
      forall j | 0 <= j < |states| ensures Inv(states[j]) {
        RunKeepsInv(states, steps, j);
      }
      forall k | 0 <= k < |steps| && steps[k].Begin? ensures TimelyAt(states, steps, k) {
        assert Careful(states[k], steps[k]);
        PublicationIsCurrentIff(states, steps, k);
      }
    }
  }

  lemma FreshHasNoDrafts(s: State)
    requires Fresh(s)
    ensures s.drafts == map[]
  {
  }
}
