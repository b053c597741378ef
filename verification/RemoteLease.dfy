/** The limit of the lease rule. `_claim` lets another host take over an operation as soon as the
    lease has expired, whether or not its holder is still alive. If the holder is alive, the
    operation can end as rolled back with its target left in quarantine. */
module RemoteLease {

  import opened Wrappers
  import opened StoragePaths
  import opened StorageTree
  import opened MaintenanceModel
  import opened MaintenanceSafety
  import opened MaintenanceHistory
  import opened MaintenanceRuns
  import opened SharedJournal

  /** A one-target operation whose thread is about to move its target, and an expired lease. */
  ghost predicate Overdue(s: State, op: Id, holder: Worker, stranger: Worker) {
    && Inv(s) && At(s, op, holder) && PcOf(s, op, holder) == Staging(0)
    && |s.rows[op].targets| == 1 && AtOrigin(s, op, 0)
    && s.rows[op].expires <= s.now
    && stranger.owner.process in s.live && stranger.owner.process.host != holder.owner.process.host
  }

  lemma StrangerMayClaim(s: State, op: Id, holder: Worker, stranger: Worker, until: int)
    requires Overdue(s, op, holder, stranger)
    ensures Enabled(s, BeginRollback(op, stranger, until)) && !Alone(s, BeginRollback(op, stranger, until))
    ensures At(s, op, holder) && PcOf(s, op, holder) == Staging(0) && holder != stranger
    ensures |s.rows[op].targets| == 1 && AtOrigin(s, op, 0)
  {
    hide Inv, AtOrigin, PcOK, Receipts, PlacesOK;
    OnlyThread(s, op, holder, holder);
    RowIsOK(s, op);
  }

  lemma StrangerClaims(s: State, op: Id, holder: Worker, stranger: Worker, until: int) returns (s': State)
    requires Overdue(s, op, holder, stranger)
    ensures Enabled(s, BeginRollback(op, stranger, until)) && s' == After(s, BeginRollback(op, stranger, until))
    ensures !Alone(s, BeginRollback(op, stranger, until))
    ensures s'.rows == s.rows[op := Leased(s.rows[op], stranger.owner, until)] && s'.fs == s.fs && s'.now == s.now && s'.live == s.live
    ensures At(s', op, stranger) && PcOf(s', op, stranger) == Restoring(1) && MaySave(s', op, stranger)
    ensures At(s', op, holder) && PcOf(s', op, holder) == Staging(0)
    ensures AtOrigin(s', op, 0)
  {
    hide Overdue, Enabled, After, Matches, Alone, Receipts;
    StrangerMayClaim(s, op, holder, stranger, until);
    var step := BeginRollback(op, stranger, until);
    s' := After(s, step);
    StepHasEffect(s, step);
    ClaimEnters(s, step);
  }

  lemma StrangerFindsTheTargetHome(s: State, op: Id, holder: Worker, stranger: Worker, until: int) returns (s1: State, s2: State)
    requires At(s, op, stranger) && PcOf(s, op, stranger) == Restoring(1) && holder != stranger
    requires |s.rows[op].targets| == 1 && AtOrigin(s, op, 0) && MaySave(s, op, stranger)
    requires At(s, op, holder) && PcOf(s, op, holder) == Staging(0)
    ensures Enabled(s, SkipPutBack(op, stranger)) && s1 == After(s, SkipPutBack(op, stranger))
    ensures Enabled(s1, SaveRestored(op, stranger, until)) && s2 == After(s1, SaveRestored(op, stranger, until))
    ensures At(s2, op, stranger) && PcOf(s2, op, stranger) == Restoring(0)
    ensures At(s2, op, holder) && PcOf(s2, op, holder) == Staging(0)
    ensures MaySave(s2, op, stranger) && |s2.rows[op].targets| == 1 && AtOrigin(s2, op, 0)
    ensures ProperRoot(s.rows[op].targets[0].root) ==> ProperRoot(s2.rows[op].targets[0].root)
    ensures s2.fs == s.fs && s2.now == s.now && s2.live == s.live
  {
    s1 := After(s, SkipPutBack(op, stranger));
    s2 := After(s1, SaveRestored(op, stranger, until));
  }

  lemma HolderMovesAfterTheEnd(s: State, op: Id, holder: Worker, stranger: Worker, until: int) returns (s1: State, s2: State)
    requires At(s, op, stranger) && PcOf(s, op, stranger) == Restoring(0) && MaySave(s, op, stranger) && holder != stranger
    requires At(s, op, holder) && PcOf(s, op, holder) == Staging(0)
    requires |s.rows[op].targets| == 1 && AtOrigin(s, op, 0) && ProperRoot(s.rows[op].targets[0].root)
    ensures Enabled(s, SaveRolledBack(op, stranger, until)) && s1 == After(s, SaveRolledBack(op, stranger, until))
    ensures Enabled(s1, Park(op, holder)) && s2 == After(s1, Park(op, holder))
    ensures op in s2.rows && s2.rows[op].phase == RolledBack && |s2.rows[op].targets| == 1 && InTrash(s2, op, 0)
    ensures forall p | p in s2.claims :: s2.claims[p] != op
    ensures s2.rows[op].owner == stranger.owner && s2.rows[op].expires == until && s2.now == s.now && s2.live == s.live
  {
    s1 := After(s, SaveRolledBack(op, stranger, until));
    var t := s1.rows[op].targets[0];
    ParkingPlacesAreUnique(t.root, t.name, op, 0, t.root, t.name, op, 0);
    s2 := After(s1, Park(op, holder));
  }

  /** Only the first claim of a run may disturb a live thread. */
  ghost predicate OnlyFirstTakesOver(states: seq<State>, steps: seq<Step>)
    requires |states| == |steps| + 1
  {
    forall k | 1 <= k < |steps| :: Careful(states[k], steps[k])
  }

  lemma Extend(states: seq<State>, steps: seq<Step>, step: Step)
    requires Run(states, steps) && Enabled(Last(states), step)
    requires OnlyFirstTakesOver(states, steps) && (|steps| > 0 ==> Careful(Last(states), step))
    ensures Run(states + [After(Last(states), step)], steps + [step])
    ensures OnlyFirstTakesOver(states + [After(Last(states), step)], steps + [step])
  {
    hide Enabled, After, Careful;
    var states', steps' := states + [After(Last(states), step)], steps + [step];
    forall k | 0 <= k < |steps'| ensures Enabled(states'[k], steps'[k]) && states'[k + 1] == After(states'[k], steps'[k]) {
      if k < |steps| {
        assert Enabled(states[k], steps[k]);
      }
    }
    forall k | 1 <= k < |steps'| ensures Careful(states'[k], steps'[k]) {
      if k < |steps| {
        assert Careful(states[k], steps[k]);
      }
    }
  }

  /** The run so far: well formed, from `s`, with its only takeover at the start. */
  ghost predicate Scenario(states: seq<State>, steps: seq<Step>, s: State) {
    Run(states, steps) && states[0] == s && |steps| > 0
    && !Alone(s, steps[0]) && OnlyFirstTakesOver(states, steps)
  }

  lemma ScenarioGrows(states: seq<State>, steps: seq<Step>, s: State, step: Step, s': State)
    requires Scenario(states, steps, s) && Enabled(Last(states), step) && s' == After(Last(states), step)
    requires step.SkipPutBack? || step.SaveRestored? || step.SaveRolledBack? || step.Park?
    ensures Scenario(states + [s'], steps + [step], s) && Last(states + [s']) == s'
  {
    Extend(states, steps, step);
  }

  lemma ThePathIsProper(s: State, op: Id, holder: Worker, stranger: Worker)
    requires Overdue(s, op, holder, stranger)
    ensures op in s.rows && |s.rows[op].targets| == 1 && ProperRoot(s.rows[op].targets[0].root) && stranger.owner.process in s.live
  {
    RowIsOK(s, op);
    hide Inv;
  }

  lemma NothingTakenOver(s: State)
    ensures Run([s], []) && OnlyFirstTakesOver([s], [])
  {
  }

  lemma TakeoverStarts(s: State, op: Id, holder: Worker, stranger: Worker, until: int) returns (states: seq<State>, steps: seq<Step>)
    requires Overdue(s, op, holder, stranger)
    ensures Scenario(states, steps, s)
    ensures var s' := Last(states);
            && At(s', op, stranger) && PcOf(s', op, stranger) == Restoring(1) && MaySave(s', op, stranger)
            && At(s', op, holder) && PcOf(s', op, holder) == Staging(0)
            && |s'.rows[op].targets| == 1 && AtOrigin(s', op, 0) && ProperRoot(s'.rows[op].targets[0].root)
            && s'.now == s.now && s'.live == s.live && stranger.owner.process in s.live
  {
    ThePathIsProper(s, op, holder, stranger);
    hide Overdue, Enabled, After, Alone, AtOrigin, ProperRoot;
    var s1 := StrangerClaims(s, op, holder, stranger, until);
    var step := BeginRollback(op, stranger, until);
    NothingTakenOver(s);
    Extend([s], [], step);
    states, steps := [s] + [s1], [] + [step];
  }

  /** From any such state the journal reaches an operation that is rolled back, owns no claim, and
      whose target is missing from its origin; the holder can no longer repair it. Only the first
      step breaks the lease assumption under which `AllOrNothing` holds. */
  lemma LiveTakeoverLosesATarget(s: State, op: Id, holder: Worker, stranger: Worker, until: int)
      returns (states: seq<State>, steps: seq<Step>)
    requires Overdue(s, op, holder, stranger) && until > s.now
    ensures Scenario(states, steps, s)
    ensures var end := Last(states);
            && op in end.rows && end.rows[op].phase == RolledBack
            && |end.rows[op].targets| == 1 && InTrash(end, op, 0)
            && (forall p | p in end.claims :: end.claims[p] != op)
            && !CanClaim(end, end.rows[op], holder.owner)
  {
    hide Inv, Enabled, After, InTrash, AtOrigin, ProperRoot;
    states, steps := TakeoverStarts(s, op, holder, stranger, until);
    var s2, s3 := StrangerFindsTheTargetHome(Last(states), op, holder, stranger, until);
    ScenarioGrows(states, steps, s, SkipPutBack(op, stranger), s2);
    states, steps := states + [s2], steps + [SkipPutBack(op, stranger)];
    ScenarioGrows(states, steps, s, SaveRestored(op, stranger, until), s3);
    states, steps := states + [s3], steps + [SaveRestored(op, stranger, until)];
    var s4, s5 := HolderMovesAfterTheEnd(s3, op, holder, stranger, until);
    ScenarioGrows(states, steps, s, SaveRolledBack(op, stranger, until), s4);
    states, steps := states + [s4], steps + [SaveRolledBack(op, stranger, until)];
    ScenarioGrows(states, steps, s, Park(op, holder), s5);
    states, steps := states + [s5], steps + [Park(op, holder)];
  }

  // ---- it is reachable ------------------------------------------------------------------------

  lemma TimePasses(s: State, op: Id, holder: Worker, stranger: Worker, seconds: nat)
    requires Inv(s) && At(s, op, holder) && PcOf(s, op, holder) == Staging(0)
    requires |s.rows[op].targets| == 1 && Stands(s, s.rows[op].targets[0]) && s.rows[op].expires <= s.now + seconds
    requires stranger.owner.process in s.live && stranger.owner.process.host != holder.owner.process.host
    ensures Enabled(s, Tick(seconds)) && Careful(s, Tick(seconds)) && Overdue(After(s, Tick(seconds)), op, holder, stranger)
  {
    hide Inv, AtOrigin, Enabled, After;
    StandingIsAtOrigin(s, op, holder);
    TickMovesTheClock(s, seconds);
    NotAClaim(s, Tick(seconds));
    StepKeepsInv(s, Tick(seconds));
    AtOriginStill(s, After(s, Tick(seconds)), op);
  }

  lemma AtOriginStill(s: State, s': State, op: Id)
    requires op in s.rows && 0 < |s.rows[op].targets| && s'.rows == s.rows && s'.fs == s.fs && AtOrigin(s, op, 0)
    ensures AtOrigin(s', op, 0)
  {
  }

  lemma StandingIsAtOrigin(s: State, op: Id, holder: Worker)
    requires Inv(s) && At(s, op, holder) && PcOf(s, op, holder) == Staging(0)
    requires |s.rows[op].targets| == 1 && Stands(s, s.rows[op].targets[0])
    ensures AtOrigin(s, op, 0)
  {
    OnlyThread(s, op, holder, holder);
    RowIsOK(s, op);
    hide Inv;
    assert AtOrigin(s, op, 0) || InTrash(s, op, 0);
  }

  /** A handler that is held up until its lease is over makes it so, from any empty journal. */
  lemma OverdueIsReachable(s: State, op: Id, holder: Worker, stranger: Worker, t: Target, lease: nat)
      returns (states: seq<State>, steps: seq<Step>)
    requires Fresh(s) && holder.owner.process in s.live && stranger.owner.process in s.live && TargetsAreSound(s, op, [t])
    requires stranger.owner.process.host != holder.owner.process.host
    ensures Run(states, steps) && Assumed(states, steps) && states[0] == s
    ensures Overdue(Last(states), op, holder, stranger) && Last(states).now == s.now + lease
  {
    hide Inv, Enabled, After, Fresh, Careful, Drafted, Overdue;
    SoundStands(s, op, t);
    hide TargetsAreSound;
    NothingDrafted(s, op, holder, [t]);
    states, steps := StagingIsReachable(s, s, op, holder, [t], s.now + lease);
    TimePasses(Last(states), op, holder, stranger, lease);
    TickMovesTheClock(Last(states), lease);
    states, steps := Carefully(states, steps, Tick(lease));
  }

  lemma TickMovesTheClock(s: State, seconds: nat)
    ensures Enabled(s, Tick(seconds)) && After(s, Tick(seconds)) == s.(now := s.now + seconds)
  {
  }

  lemma SoundStands(s: State, op: Id, t: Target)
    requires TargetsAreSound(s, op, [t])
    ensures Stands(s, t)
  {
    assert TargetIsSound(s, [t][0], op, 0);
  }

  /** Two hosts and one file: a run with one takeover, and otherwise careful, loses the file. */
  lemma ATargetIsLost() returns (states: seq<State>, steps: seq<Step>, k: nat)
    ensures Run(states, steps) && states[0] == TwoHosts() && k < |steps| && CarefulBut(states, steps, k)
    ensures var end := Last(states); 0 in end.rows && end.rows[0].phase == RolledBack && |end.rows[0].targets| == 1 && InTrash(end, 0, 0)
  {
    hide Inv, Enabled, After, Careful, Overdue;
    var t := Target(Path("", [Named("data")]), Named("job"), 7, 3, 1, Planned);
    var holder, stranger := Worker(Owner(0, Process(0, 0)), 0), Worker(Owner(1, Process(1, 0)), 0);
    OwnPlacesDiffer(t);
    assert TargetIsSound(TwoHosts(), t, 0, 0);
    var first, opening := OverdueIsReachable(TwoHosts(), 0, holder, stranger, t, 60);
    var rest, lost := LiveTakeoverLosesATarget(Last(first), 0, holder, stranger, 1000);
    Joined(first, opening, rest, lost);
    states, steps, k := first + rest[1..], opening + lost, |opening|;
    forall j | 0 <= j < |steps| && j != k ensures Careful(states[j], steps[j]) {
      if j < k {
        assert states[j] == first[j] && steps[j] == opening[j];
      } else {
        assert states[j] == rest[j - k] && steps[j] == lost[j - k];
      }
    }
  }

  function TwoHosts(): State { Example().(live := {Process(0, 0), Process(1, 0)}) }
}
