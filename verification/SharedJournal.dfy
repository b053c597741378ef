/** A process has one journal, and any number of its threads use it. The lease rule admits every one
    of them to an operation that another is working on. This module says exactly when that is
    harmless: a claim keeps the journal's promises, in every continuation in which all later claims
    are made alone and all later publications are of targets that still stand, if and only if it is
    made alone itself. */
module SharedJournal {

  import opened Wrappers
  import opened StoragePaths
  import opened StorageTree
  import opened MaintenanceModel
  import opened MaintenanceSafety
  import opened MaintenanceHistory
  import opened MaintenanceRuns

  /** What the journal promises at every moment: all or nothing for each operation, and every thread
      holds its lease and can take the next step of its program. */
  ghost predicate Guarantee(s: State) {
    && (forall op | op in s.rows :: Whole(s, op))
    && (forall op, w | At(s, op, w) :: Proceeds(s, op, w))
  }

  lemma InvGuarantees(s: State)
    requires Inv(s)
    ensures Guarantee(s)
  {
    hide Inv, Whole, Proceeds;
    forall op | op in s.rows ensures Whole(s, op) {
      InvIsWhole(s, op);
    }
    forall op, w | At(s, op, w) ensures Proceeds(s, op, w) {
      EveryThreadProceeds(s, op, w);
    }
  }

  // ---- a thread runs its program by itself ---------------------------------------------------

  /** An effect of one thread's program between its claim and its last save. */
  predicate IsEffect(step: Step, op: Id, who: Worker) {
    (step.Park? || step.SkipPark? || step.SavePark? || step.PutTargetBack? || step.SkipPutBack? || step.SaveRestored?
     || step.Reap? || step.SkipReap? || step.SaveReaped?)
    && step.op == op && step.who == who
  }

  ghost predicate Solo(states: seq<State>, steps: seq<Step>, op: Id, who: Worker) {
    Run(states, steps) && forall k | 0 <= k < |steps| :: IsEffect(steps[k], op, who)
  }

  /** Nothing is left of the program but its last save or, for a staged thread, the commit. */
  predicate AtEnd(s: State, op: Id, who: Worker) {
    At(s, op, who) && PcOf(s, op, who) in {Staging(|s.rows[op].targets|), Staged, Restoring(0), Reaping(|s.rows[op].targets|)}
  }

  predicate SameProgram(p: Pc, q: Pc) {
    (p.Staging? || p.Renamed? <==> q.Staging? || q.Renamed?) && (p.Restoring? || p.PutBack? <==> q.Restoring? || q.PutBack?)
    && (p.Staged? <==> q.Staged?)
  }

  /** How many effects a thread's program still has. */
  function EffectsLeft(s: State, op: Id, who: Worker): int
    requires At(s, op, who)
  {
    var n := |s.rows[op].targets|;
    match PcOf(s, op, who)
    case Staging(i) => 2 * (n - i)
    case Renamed(i) => 2 * (n - i) - 1
    case Staged => 0
    case Restoring(k) => 2 * k
    case PutBack(k) => 2 * k + 1
    case Reaping(i) => 2 * (n - i)
    case Reaped(i) => 2 * (n - i) - 1
  }

  /** What effects of one thread leave alone. */
  ghost predicate OnlyEffects(s: State, e: State, op: Id, who: Worker) {
    && At(s, op, who) && At(e, op, who)
    && e.live == s.live && e.now == s.now && e.domain == s.domain && e.claims == s.claims && e.drafts == s.drafts
    && e.rows == s.rows[op := e.rows[op]]
    && SameTargets(s.rows[op].targets, e.rows[op].targets)
    && e.rows[op] == s.rows[op].(targets := e.rows[op].targets, expires := e.rows[op].expires)
    && e.threads == s.threads[Thread(op, who) := e.threads[Thread(op, who)]]
  }

  lemma FileEffectChanges(s: State, step: Step, op: Id, who: Worker)
    requires Enabled(s, step) && IsEffect(step, op, who) && !step.SavePark? && !step.SaveRestored? && !step.SaveReaped?
    ensures OnlyEffects(s, After(s, step), op, who)
    ensures SameProgram(PcOf(s, op, who), PcOf(After(s, step), op, who))
  {
    hide Enabled, After;
    StepHasEffect(s, step);
    PcAdvances(s, step);
  }

  lemma SaveChanges(s: State, step: Step, op: Id, who: Worker)
    requires Enabled(s, step) && IsEffect(step, op, who) && (step.SavePark? || step.SaveRestored? || step.SaveReaped?)
    ensures OnlyEffects(s, After(s, step), op, who)
    ensures SameProgram(PcOf(s, op, who), PcOf(After(s, step), op, who))
  {
    hide Enabled, After;
    StepHasEffect(s, step);
    PcAdvances(s, step);
  }

  lemma EffectChanges(s: State, step: Step, op: Id, who: Worker)
    requires Enabled(s, step) && IsEffect(step, op, who)
    ensures OnlyEffects(s, After(s, step), op, who)
    ensures SameProgram(PcOf(s, op, who), PcOf(After(s, step), op, who))
  {
    hide Enabled, After, OnlyEffects, SameProgram;
    if step.SavePark? || step.SaveRestored? || step.SaveReaped? {
      SaveChanges(s, step, op, who);
    } else {
      FileEffectChanges(s, step, op, who);
    }
  }

  lemma EffectsCompose(a: State, b: State, c: State, op: Id, who: Worker)
    requires OnlyEffects(a, b, op, who) && OnlyEffects(b, c, op, who)
    ensures OnlyEffects(a, c, op, who)
  {
  }

  /** How far a program counter may have got. */
  predicate InRange(s: State, op: Id, who: Worker)
    requires At(s, op, who)
  {
    var n := |s.rows[op].targets|;
    match PcOf(s, op, who)
    case Staging(i) => i <= n
    case Renamed(i) => i < n
    case Staged => true
    case Restoring(k) => k <= n
    case PutBack(k) => k < n
    case Reaping(i) => i <= n
    case Reaped(i) => i < n
  }

  lemma ThreadIsInRange(s: State, op: Id, who: Worker)
    requires Inv(s) && At(s, op, who)
    ensures InRange(s, op, who)
  {
    OnlyThread(s, op, who, who);
    hide Inv;
  }

  lemma NextIsAnEffect(s: State, op: Id, who: Worker, until: int)
    requires At(s, op, who) && InRange(s, op, who) && !AtEnd(s, op, who)
    ensures IsEffect(NextStep(s, op, who, until), op, who)
  {
  }

  lemma PcIsNotOver(s: State, op: Id, who: Worker, until: int)
    requires At(s, op, who) && InRange(s, op, who) && IsEffect(NextStep(s, op, who, until), op, who)
    ensures var pc, n := PcOf(s, op, who), |s.rows[op].targets|;
            !pc.Staged? && (pc.Staging? || pc.Reaping? ==> pc.next < n) && (pc.Restoring? ==> pc.rest > 0)
  {
    hide Original, Parking;
  }

  lemma EffectsCount(s: State, op: Id, who: Worker, until: int)
    requires At(s, op, who) && InRange(s, op, who) && IsEffect(NextStep(s, op, who, until), op, who)
    requires Enabled(s, NextStep(s, op, who, until))
    ensures var s' := After(s, NextStep(s, op, who, until));
            At(s', op, who) && InRange(s', op, who) && 0 <= EffectsLeft(s', op, who) < EffectsLeft(s, op, who)
  {
    hide Enabled, After, NextStep;
    StepHasEffect(s, NextStep(s, op, who, until));
    PcAdvances(s, NextStep(s, op, who, until));
    PcIsNotOver(s, op, who, until);
  }

  lemma NextEffect(s: State, op: Id, who: Worker, until: int)
    requires Inv(s) && At(s, op, who) && !AtEnd(s, op, who)
    ensures var step := NextStep(s, op, who, until);
            Enabled(s, step) && IsEffect(step, op, who) && Inv(After(s, step))
            && At(After(s, step), op, who) && 0 <= EffectsLeft(After(s, step), op, who) < EffectsLeft(s, op, who)
  {
    hide Inv, Enabled, After, NextStep, PcOK, InRange;
    EveryThreadProceeds(s, op, who);
    ThreadIsInRange(s, op, who);
    NextIsAnEffect(s, op, who, until);
    EffectsCount(s, op, who, until);
    StepKeepsInv(s, NextStep(s, op, who, until));
  }

  /** Every thread, left alone, reaches the end of its program. */
  lemma {:induction false} EveryThreadReachesItsEnd(s: State, op: Id, who: Worker, until: int) returns (states: seq<State>, steps: seq<Step>)
    requires Inv(s) && At(s, op, who)
    ensures Solo(states, steps, op, who) && states[0] == s
    ensures Inv(Last(states)) && AtEnd(Last(states), op, who) && OnlyEffects(s, Last(states), op, who)
    ensures SameProgram(PcOf(s, op, who), PcOf(Last(states), op, who))
    decreases EffectsLeft(s, op, who)
  {
    hide Inv, Enabled, After, NextStep;
    if AtEnd(s, op, who) {
      return [s], [];
    }
    var step := NextStep(s, op, who, until);
    NextEffect(s, op, who, until);
    EffectChanges(s, step, op, who);
    var rest, more := EveryThreadReachesItsEnd(After(s, step), op, who, until);
    EffectsCompose(s, After(s, step), Last(rest), op, who);
    return [s] + rest, [step] + more;
  }

  // ---- a thread does not notice the others ---------------------------------------------------

  /** The actual state `s` looks to one thread like the ideal state `u`: the same files, the same
      rows but for what the thread never reads in its own (phase, receipts, expiry), and the thread
      at the same point. Other threads may be there. */
  ghost predicate LooksLike(s: State, u: State, op: Id, who: Worker) {
    && s.fs == u.fs && At(s, op, who) && At(u, op, who)
    && s.rows == u.rows[op := s.rows[op]]
    && s.rows[op].owner == u.rows[op].owner && SameTargets(u.rows[op].targets, s.rows[op].targets)
    && PcOf(s, op, who) == PcOf(u, op, who) && |CopyOf(s, op, who)| == |CopyOf(u, op, who)|
  }

  predicate SameRecord(s: State, u: State, op: Id, who: Worker)
    requires At(s, op, who) && At(u, op, who)
  {
    s.rows[op] == u.rows[op] && CopyOf(s, op, who) == CopyOf(u, op, who)
  }

  lemma UnnoticedFiles(s: State, u: State, step: Step, op: Id, who: Worker)
    requires LooksLike(s, u, op, who) && Enabled(u, step) && IsEffect(step, op, who)
    requires !step.SavePark? && !step.SaveRestored? && !step.SaveReaped?
    ensures Enabled(s, step) && LooksLike(After(s, step), After(u, step), op, who)
    ensures SameRecord(s, u, op, who) ==> SameRecord(After(s, step), After(u, step), op, who)
  {
    hide Enabled, After, LooksLike, SameRecord;
    if step.Park? || step.SkipPark? {
      UnnoticedPark(s, u, step, op, who);
    } else if step.PutTargetBack? || step.SkipPutBack? {
      UnnoticedPutBack(s, u, step, op, who);
    } else {
      UnnoticedReap(s, u, step, op, who);
    }
  }

  lemma UnnoticedPark(s: State, u: State, step: Step, op: Id, who: Worker)
    requires LooksLike(s, u, op, who) && Enabled(u, step) && IsEffect(step, op, who)
    requires step.Park? || step.SkipPark?
    ensures Enabled(s, step) && LooksLike(After(s, step), After(u, step), op, who)
    ensures SameRecord(s, u, op, who) ==> SameRecord(After(s, step), After(u, step), op, who)
  {
    hide Bytes, Files;
  }

  lemma UnnoticedPutBack(s: State, u: State, step: Step, op: Id, who: Worker)
    requires LooksLike(s, u, op, who) && Enabled(u, step) && IsEffect(step, op, who)
    requires step.PutTargetBack? || step.SkipPutBack?
    ensures Enabled(s, step) && LooksLike(After(s, step), After(u, step), op, who)
    ensures SameRecord(s, u, op, who) ==> SameRecord(After(s, step), After(u, step), op, who)
  {
    hide Bytes, Files;
  }

  lemma UnnoticedReap(s: State, u: State, step: Step, op: Id, who: Worker)
    requires LooksLike(s, u, op, who) && Enabled(u, step) && IsEffect(step, op, who)
    requires step.Reap? || step.SkipReap?
    ensures Enabled(s, step) && LooksLike(After(s, step), After(u, step), op, who)
    ensures SameRecord(s, u, op, who) ==> SameRecord(After(s, step), After(u, step), op, who)
  {
    hide Bytes, Files;
  }

  lemma UnnoticedSave(s: State, u: State, step: Step, op: Id, who: Worker)
    requires LooksLike(s, u, op, who) && Enabled(u, step) && IsEffect(step, op, who)
    requires step.SavePark? || step.SaveRestored? || step.SaveReaped?
    ensures Enabled(s, step) && LooksLike(After(s, step), After(u, step), op, who)
    ensures SameRecord(s, u, op, who) ==> SameRecord(After(s, step), After(u, step), op, who)
  {
    hide Enabled, After, LooksLike, SameRecord;
    if step.SavePark? {
      UnnoticedSavePark(s, u, step, op, who);
    } else if step.SaveRestored? {
      UnnoticedSaveRestored(s, u, step, op, who);
    } else {
      UnnoticedSaveReaped(s, u, step, op, who);
    }
  }

  lemma UnnoticedSavePark(s: State, u: State, step: Step, op: Id, who: Worker)
    requires LooksLike(s, u, op, who) && Enabled(u, step) && IsEffect(step, op, who)
    requires step.SavePark?
    ensures Enabled(s, step) && LooksLike(After(s, step), After(u, step), op, who)
    ensures SameRecord(s, u, op, who) ==> SameRecord(After(s, step), After(u, step), op, who)
  {
    hide Matches, Receipts;
  }

  lemma UnnoticedSaveRestored(s: State, u: State, step: Step, op: Id, who: Worker)
    requires LooksLike(s, u, op, who) && Enabled(u, step) && IsEffect(step, op, who)
    requires step.SaveRestored?
    ensures Enabled(s, step) && LooksLike(After(s, step), After(u, step), op, who)
    ensures SameRecord(s, u, op, who) ==> SameRecord(After(s, step), After(u, step), op, who)
  {
    hide Matches, Receipts;
  }

  lemma UnnoticedSaveReaped(s: State, u: State, step: Step, op: Id, who: Worker)
    requires LooksLike(s, u, op, who) && Enabled(u, step) && IsEffect(step, op, who)
    requires step.SaveReaped?
    ensures Enabled(s, step) && LooksLike(After(s, step), After(u, step), op, who)
    ensures SameRecord(s, u, op, who) ==> SameRecord(After(s, step), After(u, step), op, who)
  {
    hide Matches, Receipts;
  }

  /** Whatever a thread can do in the ideal state it does in the actual one, with the same effects. */
  lemma {:induction false} Unnoticed(s: State, ideal: seq<State>, steps: seq<Step>, op: Id, who: Worker) returns (states: seq<State>)
    requires Solo(ideal, steps, op, who) && LooksLike(s, ideal[0], op, who)
    ensures Solo(states, steps, op, who) && states[0] == s
    ensures LooksLike(Last(states), Last(ideal), op, who) && OnlyEffects(s, Last(states), op, who)
    ensures SameRecord(s, ideal[0], op, who) ==> SameRecord(Last(states), Last(ideal), op, who)
    decreases |steps|
  {
    hide Enabled, After;
    if steps == [] {
      return [s];
    }
    var u, step := ideal[0], steps[0];
    if step.SavePark? || step.SaveRestored? || step.SaveReaped? {
      UnnoticedSave(s, u, step, op, who);
    } else {
      UnnoticedFiles(s, u, step, op, who);
    }
    EffectChanges(s, step, op, who);
    var rest := Unnoticed(After(s, step), ideal[1..], steps[1..], op, who);
    EffectsCompose(s, After(s, step), Last(rest), op, who);
    return [s] + rest;
  }

  // ---- what can happen after a claim ----------------------------------------------------------

  /** A run that starts with `step` and in which every later step is careful. */
  ghost predicate Continues(states: seq<State>, steps: seq<Step>, s: State, step: Step) {
    && Run(states, steps) && states[0] == s && |steps| > 0 && steps[0] == step
    && forall k | 1 <= k < |steps| :: Careful(states[k], steps[k])
  }

  ghost predicate KeepsGuarantee(s: State, step: Step) {
    forall states, steps | Continues(states, steps, s, step) :: Guarantee(Last(states))
  }

  lemma ContinuesAlone(s: State, step: Step)
    requires Enabled(s, step)
    ensures Continues([s, After(s, step)], [step], s, step)
  {
  }

  lemma ContinuesWith(states: seq<State>, steps: seq<Step>, s: State, step: Step, next: Step) returns (more: seq<State>)
    requires Continues(states, steps, s, step) && Enabled(Last(states), next) && !IsClaim(next) && !next.Begin?
    ensures Continues(more, steps + [next], s, step) && more == states + [After(Last(states), next)]
  {
    hide Enabled, After;
    more := states + [After(Last(states), next)];
  }

  lemma ContinuesWithRun(states: seq<State>, steps: seq<Step>, s: State, step: Step, rest: seq<State>, effects: seq<Step>, op: Id, who: Worker)
      returns (more: seq<State>)
    requires Continues(states, steps, s, step) && Solo(rest, effects, op, who) && rest[0] == Last(states)
    ensures Continues(more, steps + effects, s, step) && Last(more) == Last(rest)
  {
    hide Enabled, After;
    more := states + rest[1..];
    assert forall k | 0 <= k < |rest| :: more[|states| - 1 + k] == rest[k];
    forall k | 0 <= k < |steps + effects|
      ensures Enabled(more[k], (steps + effects)[k]) && more[k + 1] == After(more[k], (steps + effects)[k])
      ensures k >= 1 ==> Careful(more[k], (steps + effects)[k])
    {
      if k >= |steps| {
        var j := k - |steps|;
        assert more[k] == rest[j] && more[k + 1] == rest[j + 1];
      }
    }
  }

  /** Two workers of one journal: `a` is inside the operation, `b` makes the claim. */
  ghost predicate Disturbs(s: State, op: Id, a: Worker, b: Worker, claim: Step) {
    && Inv(s) && At(s, op, a) && a != b && a.owner == b.owner
    && Enabled(s, claim) && (claim.BeginStage? || claim.BeginRollback? || claim.BeginReap?)
    && claim.op == op && claim.who == b
  }

  lemma LookKeepsInv(s: State, op: Id, a: Worker, b: Worker, until: int)
    requires Inv(s) && At(s, op, a) && a.owner == b.owner
    ensures Enabled(s, Refresh(op, b, until)) && Inv(After(s, Refresh(op, b, until)))
  {
    OnlyThread(s, op, a, a);
    forall w | Thread(op, w) in s.threads ensures w == a {
      OnlyThread(s, op, a, w);
    }
    StepKeepsInv(s, Refresh(op, b, until));
  }

  /** `s'` is `s` after a claim by `b` that starts a program, `u` after a bare look by `b`. */
  ghost predicate OneMoreThread(s: State, s': State, u: State, op: Id, a: Worker, b: Worker, until: int) {
    && At(s, op, a) && LooksLike(s', u, op, a) && SameRecord(s', u, op, a) && PcOf(s', op, a) == PcOf(s, op, a)
    && s'.rows == s.rows[op := Leased(s.rows[op], b.owner, until)] && s'.fs == s.fs && s'.domain == s.domain
    && At(s', op, b) && |CopyOf(s', op, b)| == |s'.rows[op].targets|
  }

  lemma ClaimAddsAThread(s: State, op: Id, a: Worker, b: Worker, claim: Step)
    requires claim.BeginStage? || claim.BeginRollback? || claim.BeginReap?
    requires At(s, op, a) && a != b && Enabled(s, claim) && Enabled(s, Refresh(op, b, claim.until))
    requires claim.op == op && claim.who == b
    ensures OneMoreThread(s, After(s, claim), After(s, Refresh(op, b, claim.until)), op, a, b, claim.until)
  {
  }

  /** The claim only adds a thread to what a bare look by the same worker would leave. */
  lemma ClaimLooksLikeALook(s: State, op: Id, a: Worker, b: Worker, claim: Step)
    requires Disturbs(s, op, a, b, claim)
    ensures Enabled(s, Refresh(op, b, claim.until)) && Inv(After(s, Refresh(op, b, claim.until)))
    ensures OneMoreThread(s, After(s, claim), After(s, Refresh(op, b, claim.until)), op, a, b, claim.until)
  {
    hide Inv, Enabled, After, OneMoreThread;
    LookKeepsInv(s, op, a, b, claim.until);
    ClaimAddsAThread(s, op, a, b, claim);
  }

  /** After the claim the first worker finishes its program as if nothing had happened; the second
      one has not moved. */
  lemma FirstFinishes(s: State, op: Id, a: Worker, b: Worker, claim: Step)
      returns (states: seq<State>, steps: seq<Step>, ideal: State)
    requires Disturbs(s, op, a, b, claim)
    ensures Continues(states, steps, s, claim)
    ensures Inv(ideal) && AtEnd(ideal, op, a) && SameProgram(PcOf(s, op, a), PcOf(ideal, op, a))
    ensures var e := Last(states);
            && LooksLike(e, ideal, op, a) && SameRecord(e, ideal, op, a) && e.domain == s.domain
            && OnlyEffects(After(s, claim), e, op, a)
            && Thread(op, b) in e.threads && Thread(op, b) in After(s, claim).threads
            && e.threads[Thread(op, b)] == After(s, claim).threads[Thread(op, b)]
  {
    hide Inv, Enabled, After, LooksLike, SameRecord;
    LookKeepsInv(s, op, a, b, claim.until);
    ClaimLooksLikeALook(s, op, a, b, claim);
    var u := After(s, Refresh(op, b, claim.until));
    AtBoth(After(s, claim), u, op, a);
    var ideals, effects := EveryThreadReachesItsEnd(u, op, a, claim.until);
    var rest := Unnoticed(After(s, claim), ideals, effects, op, a);
    ContinuesAlone(s, claim);
    states := ContinuesWithRun([s, After(s, claim)], [claim], s, claim, rest, effects, op, a);
    steps, ideal := [claim] + effects, Last(ideals);
  }

  lemma AtBoth(s: State, u: State, op: Id, who: Worker)
    requires LooksLike(s, u, op, who)
    ensures At(u, op, who) && At(s, op, who) && PcOf(s, op, who) == PcOf(u, op, who)
  {
  }

  // ---- every disturbing claim can break a promise --------------------------------------------

  ghost predicate AllInTrash(s: State, op: Id) {
    op in s.rows && forall i | 0 <= i < |s.rows[op].targets| :: InTrash(s, op, i)
  }

  ghost predicate AllAtOrigin(s: State, op: Id) {
    op in s.rows && forall i | 0 <= i < |s.rows[op].targets| :: AtOrigin(s, op, i)
  }

  ghost predicate AllGoneFrom(s: State, op: Id) {
    op in s.rows && forall i | 0 <= i < |s.rows[op].targets| :: Gone(s, op, i)
  }

  predicate AllMoved(row: Row) { forall t | t in row.targets :: t.receipt == Moved }

  /** Where the targets are when a program has reached its end. */
  lemma EndOfProgram(e: State, ideal: State, op: Id, a: Worker)
    requires Inv(ideal) && AtEnd(ideal, op, a) && LooksLike(e, ideal, op, a) && SameRecord(e, ideal, op, a)
    ensures TargetsOK(e.rows[op]) && MaySave(e, op, a)
    ensures PcOf(e, op, a).Staging? || PcOf(e, op, a).Staged? ==> AllInTrash(e, op) && AllMoved(e.rows[op])
    ensures PcOf(e, op, a).Staged? ==> e.rows[op].phase == Detached
    ensures PcOf(e, op, a).Restoring? ==> AllAtOrigin(e, op)
    ensures PcOf(e, op, a).Reaping? ==> AllGoneFrom(e, op)
    ensures AtEnd(e, op, a)
  {
    OnlyThread(ideal, op, a, a);
    RowIsOK(ideal, op);
    hide Inv;
    forall i | 0 <= i < |e.rows[op].targets|
      ensures (InTrash(e, op, i) <==> InTrash(ideal, op, i)) && (AtOrigin(e, op, i) <==> AtOrigin(ideal, op, i)) && (Gone(e, op, i) <==> Gone(ideal, op, i))
    {
    }
  }

  lemma LastSaveOfStaging(e: State, op: Id, a: Worker, b: Worker, until: int)
    requires At(e, op, a) && PcOf(e, op, a) == Staging(|e.rows[op].targets|) && MaySave(e, op, a)
    requires AllMoved(e.rows[op]) && CopyOf(e, op, a) == Receipts(e.rows[op].targets) && a != b
    ensures Enabled(e, SaveDetached(op, a, until))
    ensures var e' := After(e, SaveDetached(op, a, until));
            && At(e', op, a) && PcOf(e', op, a) == Staged && e'.rows[op] == e.rows[op].(phase := Detached, expires := until)
            && e'.rows == e.rows[op := e'.rows[op]] && e'.fs == e.fs && e'.domain == e.domain && e'.live == e.live && e'.claims == e.claims
            && (Thread(op, b) in e'.threads <==> Thread(op, b) in e.threads)
            && (Thread(op, b) in e.threads ==> e'.threads[Thread(op, b)] == e.threads[Thread(op, b)])
  {
    SaveMarksNone(e.rows[op].targets);
  }

  /** The domain mutation is durable, and a target is where it was before. */
  ghost predicate CommittedAtOrigin(s: State, op: Id) {
    op in s.rows && s.rows[op].phase == Committed && op in s.domain && exists i: nat :: i < |s.rows[op].targets| && AtOrigin(s, op, i)
  }

  /** The row says rolled back, and a target is in quarantine. */
  ghost predicate RolledBackInTrash(s: State, op: Id) {
    op in s.rows && s.rows[op].phase == RolledBack && exists i: nat :: i < |s.rows[op].targets| && InTrash(s, op, i)
  }

  /** One worker is about to commit, another is about to put the last target back. */
  ghost predicate Cornered(e: State, op: Id, a: Worker, b: Worker) {
    && a != b && At(e, op, a) && PcOf(e, op, a) == Staged && At(e, op, b) && PcOf(e, op, b) == Restoring(|e.rows[op].targets|)
    && TargetsOK(e.rows[op]) && AllInTrash(e, op) && e.rows[op].phase == Detached && AllMoved(e.rows[op])
  }

  lemma CornerBreaks(e: State, op: Id, a: Worker, b: Worker) returns (commit: Step)
    requires Cornered(e, op, a, b)
    ensures Enabled(e, PutTargetBack(op, b))
    ensures commit == Commit(op, a, e.rows[op].kind, e.rows[op].subject) && Enabled(After(e, PutTargetBack(op, b)), commit)
    ensures var end := After(After(e, PutTargetBack(op, b)), commit); CommittedAtOrigin(end, op) && !Whole(end, op)
  {
    assert InTrash(e, op, |e.rows[op].targets| - 1);
    var e' := RestorePutsTheLastTargetBack(e, op, b);
    commit := Commit(op, a, e.rows[op].kind, e.rows[op].subject);
    var n := |e.rows[op].targets| - 1;
    assert AtOrigin(e', op, n);
    var end := After(e', commit);
    assert Original(end.rows[op].targets[n]) in end.fs;
    assert AtOrigin(end, op, n) && !InTrash(end, op, n) && !Gone(end, op, n);
  }

  ghost predicate BreaksAfter(states: seq<State>, steps: seq<Step>, s: State, claim: Step) {
    Continues(states, steps, s, claim) && !Guarantee(Last(states))
  }

  lemma NotWhole(s: State, op: Id)
    requires op in s.rows && !Whole(s, op)
    ensures !Guarantee(s)
  {
  }

  lemma NoProgress(s: State, op: Id, who: Worker, until: int)
    requires At(s, op, who) && !Enabled(s, NextStep(s, op, who, until))
    ensures !Guarantee(s)
  {
    assert !Proceeds(s, op, who);
  }

  lemma SecondStartsAtTheTop(s: State, op: Id, b: Worker, claim: Step)
    requires claim.BeginStage? || claim.BeginRollback? || claim.BeginReap?
    requires Enabled(s, claim) && claim.op == op && claim.who == b
    ensures At(After(s, claim), op, b)
    ensures claim.BeginStage? ==> PcOf(After(s, claim), op, b) == Staging(0)
    ensures claim.BeginRollback? ==> PcOf(After(s, claim), op, b) == Restoring(|s.rows[op].targets|)
    ensures claim.BeginReap? ==> PcOf(After(s, claim), op, b) == Reaping(0)
    ensures |After(s, claim).rows[op].targets| == |s.rows[op].targets|
    ensures After(s, claim).rows[op].phase == s.rows[op].phase
    ensures CopyOf(After(s, claim), op, b) == Receipts(s.rows[op].targets)
  {
  }

  lemma PhaseIsKept(s: State, e: State, op: Id, who: Worker)
    requires OnlyEffects(s, e, op, who)
    ensures e.rows[op].phase == s.rows[op].phase && |e.rows[op].targets| == |s.rows[op].targets|
  {
  }

  /** A rollback started beside a staging or staged worker: the domain commits, and then a target is
      back at its origin. */
  lemma RollbackBesideStaging(s: State, op: Id, a: Worker, b: Worker, claim: Step) returns (states: seq<State>, steps: seq<Step>)
    requires Disturbs(s, op, a, b, claim) && claim.BeginRollback?
    requires PcOf(s, op, a).Staging? || PcOf(s, op, a).Renamed? || PcOf(s, op, a).Staged?
    ensures BreaksAfter(states, steps, s, claim) && CommittedAtOrigin(Last(states), op)
  {
    hide Inv, Enabled, After, Guarantee, Whole, LooksLike, SameRecord, InTrash, AtOrigin, TargetsOK, CommittedAtOrigin;
    var ideal: State;
    states, steps, ideal := FirstFinishes(s, op, a, b, claim);
    var e := Last(states);
    AtBoth(e, ideal, op, a);
    EndOfProgram(e, ideal, op, a);
    SecondStartsAtTheTop(s, op, b, claim);
    PhaseIsKept(After(s, claim), e, op, a);
    if PcOf(e, op, a).Staging? {
      ExactCopy(e, ideal, op, a);
      LastSaveOfStaging(e, op, a, b, claim.until);
      SavedInTrash(e, After(e, SaveDetached(op, a, claim.until)), op);
      states := ContinuesWith(states, steps, s, claim, SaveDetached(op, a, claim.until));
      steps := steps + [SaveDetached(op, a, claim.until)];
      e := Last(states);
    }
    assert Cornered(e, op, a, b);
    var commit := CornerBreaks(e, op, a, b);
    states := ContinuesWith(states, steps, s, claim, PutTargetBack(op, b));
    steps := steps + [PutTargetBack(op, b)];
    states := ContinuesWith(states, steps, s, claim, commit);
    steps := steps + [commit];
    NotWhole(Last(states), op);
  }

  lemma ExactCopy(e: State, ideal: State, op: Id, a: Worker)
    requires Inv(ideal) && LooksLike(e, ideal, op, a) && SameRecord(e, ideal, op, a)
    ensures CopyOf(e, op, a) == Receipts(e.rows[op].targets)
  {
    OnlyThread(ideal, op, a, a);
  }

  lemma SavedInTrash(e: State, e': State, op: Id)
    requires AllInTrash(e, op) && TargetsOK(e.rows[op]) && e'.fs == e.fs && op in e'.rows && e'.rows[op].targets == e.rows[op].targets
    ensures AllInTrash(e', op) && TargetsOK(e'.rows[op])
  {
    forall i | 0 <= i < |e'.rows[op].targets| ensures InTrash(e', op, i) {
      assert InTrash(e, op, i);
    }
  }

  lemma LastSaveOfRestoring(e: State, op: Id, a: Worker, b: Worker, until: int)
    requires At(e, op, a) && PcOf(e, op, a) == Restoring(0) && MaySave(e, op, a) && CopyOf(e, op, a) == Receipts(e.rows[op].targets)
    requires a != b && At(e, op, b)
    ensures Enabled(e, SaveRolledBack(op, a, until))
    ensures var e' := After(e, SaveRolledBack(op, a, until));
            && At(e', op, b) && PcOf(e', op, b) == PcOf(e, op, b) && e'.fs == e.fs
            && e'.rows == e.rows[op := e.rows[op].(phase := RolledBack, expires := until)]
  {
    SaveMarksNone(e.rows[op].targets);
  }

  lemma LastSaveOfReaping(e: State, op: Id, a: Worker, b: Worker, until: int)
    requires At(e, op, a) && PcOf(e, op, a) == Reaping(|e.rows[op].targets|) && MaySave(e, op, a) && CopyOf(e, op, a) == Receipts(e.rows[op].targets)
    requires a != b && At(e, op, b)
    ensures Enabled(e, SaveFinalized(op, a, until))
    ensures var e' := After(e, SaveFinalized(op, a, until));
            && At(e', op, b) && PcOf(e', op, b) == PcOf(e, op, b) && e'.fs == e.fs
            && e'.rows == e.rows[op := e.rows[op].(phase := Finalized, expires := until)]
  {
    SaveMarksNone(e.rows[op].targets);
  }

  /** The first worker has ended the operation; the second one has not moved. */
  lemma FirstEnds(s: State, op: Id, a: Worker, b: Worker, claim: Step) returns (states: seq<State>, steps: seq<Step>)
    requires Disturbs(s, op, a, b, claim)
    requires !PcOf(s, op, a).Staging? && !PcOf(s, op, a).Renamed? && !PcOf(s, op, a).Staged?
    ensures Continues(states, steps, s, claim)
    ensures var e := Last(states);
            && At(e, op, b) && Thread(op, b) in After(s, claim).threads && PcOf(e, op, b) == After(s, claim).threads[Thread(op, b)].pc
            && e.rows == s.rows[op := e.rows[op]] && SameTargets(s.rows[op].targets, e.rows[op].targets) && TargetsOK(e.rows[op])
            && (if PcOf(s, op, a).Restoring? || PcOf(s, op, a).PutBack? then e.rows[op].phase == RolledBack && AllAtOrigin(e, op)
                else e.rows[op].phase == Finalized && AllGoneFrom(e, op))
  {
    hide Inv, Enabled, After, Guarantee, Whole, LooksLike, SameRecord, AtOrigin, Gone, TargetsOK;
    var ideal: State;
    states, steps, ideal := FirstFinishes(s, op, a, b, claim);
    var e := Last(states);
    AtBoth(e, ideal, op, a);
    EndOfProgram(e, ideal, op, a);
    ExactCopy(e, ideal, op, a);
    RowsSinceClaim(s, e, op, a, b, claim);
    if PcOf(e, op, a).Restoring? {
      LastSaveOfRestoring(e, op, a, b, claim.until);
      states := ContinuesWith(states, steps, s, claim, SaveRolledBack(op, a, claim.until));
      steps := steps + [SaveRolledBack(op, a, claim.until)];
    } else {
      LastSaveOfReaping(e, op, a, b, claim.until);
      states := ContinuesWith(states, steps, s, claim, SaveFinalized(op, a, claim.until));
      steps := steps + [SaveFinalized(op, a, claim.until)];
    }
    SamePlacesLater(e, Last(states), op);
  }

  lemma RowsSinceClaim(s: State, e: State, op: Id, a: Worker, b: Worker, claim: Step)
    requires Disturbs(s, op, a, b, claim) && OnlyEffects(After(s, claim), e, op, a)
    ensures op in s.rows && op in e.rows && e.rows == s.rows[op := e.rows[op]] && SameTargets(s.rows[op].targets, e.rows[op].targets)
    ensures e.rows[op].phase == s.rows[op].phase
  {
    hide Inv, Enabled, After, LooksLike, SameRecord;
    ClaimLooksLikeALook(s, op, a, b, claim);
  }

  lemma SamePlacesLater(e: State, e': State, op: Id)
    requires op in e.rows && op in e'.rows && e'.rows[op].targets == e.rows[op].targets && e'.fs == e.fs
    ensures AllAtOrigin(e, op) ==> AllAtOrigin(e', op)
    ensures AllGoneFrom(e, op) ==> AllGoneFrom(e', op)
    ensures TargetsOK(e.rows[op]) ==> TargetsOK(e'.rows[op])
  {
    forall i | 0 <= i < |e'.rows[op].targets|
      ensures (AtOrigin(e, op, i) <==> AtOrigin(e', op, i)) && (Gone(e, op, i) <==> Gone(e', op, i))
    {
    }
  }

  /** Staging started beside a restoring worker: the operation is rolled back, and then a target is
      in quarantine. */
  lemma StageBesideRestoring(s: State, op: Id, a: Worker, b: Worker, claim: Step) returns (states: seq<State>, steps: seq<Step>)
    requires Disturbs(s, op, a, b, claim) && claim.BeginStage?
    requires PcOf(s, op, a).Restoring? || PcOf(s, op, a).PutBack?
    ensures BreaksAfter(states, steps, s, claim) && RolledBackInTrash(Last(states), op)
  {
    hide RolledBackInTrash;
    hide Inv, Enabled, After, Guarantee, Whole, TargetsOK, AtOrigin;
    states, steps := FirstEnds(s, op, a, b, claim);
    SecondStartsAtTheTop(s, op, b, claim);
    ParkBreaks(Last(states), op, b);
    states := ContinuesWith(states, steps, s, claim, Park(op, b));
    steps := steps + [Park(op, b)];
    NotWhole(Last(states), op);
  }

  lemma ParkBreaks(e: State, op: Id, b: Worker)
    requires At(e, op, b) && PcOf(e, op, b) == Staging(0) && e.rows[op].phase == RolledBack && TargetsOK(e.rows[op]) && AllAtOrigin(e, op)
    ensures Enabled(e, Park(op, b))
    ensures RolledBackInTrash(After(e, Park(op, b)), op) && !Whole(After(e, Park(op, b)), op)
  {
    assert AtOrigin(e, op, 0);
    OwnPlacesApart(e, op, 0);
    assert InTrash(After(e, Park(op, b)), op, 0) && !Unparked(After(e, Park(op, b)), op, 0);
  }

  /** A rollback started beside a restoring worker: the operation is rolled back, its paths are free
      again, and the second worker cannot go on once somebody has removed a file. */
  lemma RollbackBesideRestoring(s: State, op: Id, a: Worker, b: Worker, claim: Step) returns (states: seq<State>, steps: seq<Step>)
    requires Disturbs(s, op, a, b, claim) && claim.BeginRollback?
    requires PcOf(s, op, a).Restoring? || PcOf(s, op, a).PutBack?
    ensures BreaksAfter(states, steps, s, claim)
  {
    hide Inv, Enabled, After, Guarantee, Whole, TargetsOK, AtOrigin;
    states, steps := FirstEnds(s, op, a, b, claim);
    SecondStartsAtTheTop(s, op, b, claim);
    var i := |s.rows[op].targets| - 1;
    HasTargets(s, op, claim);
    var write := Write(Original(s.rows[op].targets[i]), None);
    FreedPathIsNobodys(s, Last(states), op, i);
    RemovalStops(Last(states), op, b, i);
    states := ContinuesWith(states, steps, s, claim, write);
    steps := steps + [write];
    NoProgress(Last(states), op, b, 0);
  }

  lemma HasTargets(s: State, op: Id, claim: Step)
    requires Inv(s) && Enabled(s, claim) && (claim.BeginStage? || claim.BeginRollback? || claim.BeginReap?) && claim.op == op
    ensures op in s.rows && |s.rows[op].targets| > 0 && Unfinished(s.rows[op])
  {
    RowIsOK(s, op);
  }

  /** The original path of a finished operation belongs to no operation. */
  lemma FreedPathIsNobodys(s: State, e: State, op: Id, i: nat)
    requires Inv(s) && op in s.rows && Unfinished(s.rows[op]) && i < |s.rows[op].targets|
    requires op in e.rows && e.rows == s.rows[op := e.rows[op]] && SameTargets(s.rows[op].targets, e.rows[op].targets) && !Unfinished(e.rows[op])
    ensures !Reserved(e, Original(s.rows[op].targets[i]))
  {
    var p := Original(s.rows[op].targets[i]);
    forall o, j: nat | o in e.rows && j < |e.rows[o].targets|
      ensures !(Unfinished(e.rows[o]) && p == Original(e.rows[o].targets[j])) && p != Parking(e.rows[o].targets[j], o, j)
    {
      RowIsOK(s, op);
      RowIsOK(s, o);
      hide RowOK;
      assert Original(e.rows[o].targets[j]) == Original(s.rows[o].targets[j]);
      assert Parking(e.rows[o].targets[j], o, j) == Parking(s.rows[o].targets[j], o, j);
      if o != op || j != i {
        PlacesApart(s, op, i, o, j);
      } else {
        OwnPlacesApart(s, op, i);
      }
    }
    RowIsOK(s, op);
    forall t, j: nat | t in e.drafts && j < |e.drafts[t]| ensures p != Parking(e.drafts[t][j], t.operation, j) {
      OriginalIsNoParking(s.rows[op].targets[i], e.drafts[t][j], t.operation, j);
    }
  }

  lemma RemovalStops(e: State, op: Id, b: Worker, i: nat)
    requires At(e, op, b) && PcOf(e, op, b) == Restoring(i + 1) && i < |e.rows[op].targets| && AllAtOrigin(e, op)
    requires !Reserved(e, Original(e.rows[op].targets[i]))
    ensures var write := Write(Original(e.rows[op].targets[i]), None);
            && Enabled(e, write) && At(After(e, write), op, b)
            && !Enabled(After(e, write), NextStep(After(e, write), op, b, 0))
  {
    hide Reserved;
    assert AtOrigin(e, op, i);
  }

  /** Deletion started beside a deleting worker: the operation is finalized, its paths are free again,
      and the second worker cannot go on once somebody has created a file. */
  lemma ReapBesideReaping(s: State, op: Id, a: Worker, b: Worker, claim: Step) returns (states: seq<State>, steps: seq<Step>)
    requires Disturbs(s, op, a, b, claim) && claim.BeginReap?
    requires PcOf(s, op, a).Reaping? || PcOf(s, op, a).Reaped?
    ensures BreaksAfter(states, steps, s, claim)
  {
    hide Inv, Enabled, After, Guarantee, Whole, TargetsOK, Gone;
    states, steps := FirstEnds(s, op, a, b, claim);
    SecondStartsAtTheTop(s, op, b, claim);
    HasTargets(s, op, claim);
    var write := Write(Original(s.rows[op].targets[0]), Some(Entry(0, File(0))));
    FreedPathIsNobodys(s, Last(states), op, 0);
    CreationStops(Last(states), op, b, Entry(0, File(0)));
    states := ContinuesWith(states, steps, s, claim, write);
    steps := steps + [write];
    NoProgress(Last(states), op, b, 0);
  }

  lemma CreationStops(e: State, op: Id, b: Worker, entry: Entry)
    requires At(e, op, b) && PcOf(e, op, b) == Reaping(0) && 0 < |e.rows[op].targets| && AllGoneFrom(e, op) && TargetsOK(e.rows[op])
    requires !Reserved(e, Original(e.rows[op].targets[0]))
    ensures var write := Write(Original(e.rows[op].targets[0]), Some(entry));
            && Enabled(e, write) && At(After(e, write), op, b)
            && !Enabled(After(e, write), NextStep(After(e, write), op, b, 0))
  {
    hide Reserved;
    assert Gone(e, op, 0);
    OwnPlacesApart(e, op, 0);
  }

  lemma CommitOfAStaged(e: State, op: Id, a: Worker, b: Worker)
    requires a != b && At(e, op, a) && PcOf(e, op, a) == Staged && At(e, op, b) && e.rows[op].phase == Detached && AllMoved(e.rows[op])
    ensures var commit := Commit(op, a, e.rows[op].kind, e.rows[op].subject);
            && Enabled(e, commit)
            && var e' := After(e, commit);
            && At(e', op, b) && e'.threads[Thread(op, b)] == e.threads[Thread(op, b)] && e'.fs == e.fs
            && e'.rows == e.rows[op := e.rows[op].(phase := Committed)] && op in e'.domain
  {
  }

  lemma FirstStops(x: State, op: Id, a: Worker) returns (y: State)
    requires Inv(x) && At(x, op, a)
    ensures Inv(y) && y.rows == x.rows && y.fs == x.fs && y.live == x.live && y.now == x.now
    ensures forall w :: Thread(op, w) !in y.threads
    ensures a.owner == x.rows[op].owner && a.owner.process in x.live && PcOK(x, op, PcOf(x, op, a))
  {
    hide Inv, PcOK, Receipts;
    OnlyThread(x, op, a, a);
    var step := Abandon(op, a);
    y := After(x, step);
    StepKeepsInv(x, step);
    hide Enabled, After;
    StepHasEffect(x, step);
    forall w ensures Thread(op, w) !in y.threads {
      if Thread(op, w) in x.threads {
        OnlyThread(x, op, a, w);
      }
    }
  }

  /** What the second worker of a staging would see if the first had merely stopped. */
  lemma IdealSecondStage(x: State, op: Id, a: Worker, b: Worker, until: int) returns (u: State)
    requires Inv(x) && At(x, op, a) && PcOf(x, op, a).Staging? && a.owner == b.owner && a != b
    ensures Inv(u) && At(u, op, b) && PcOf(u, op, b) == Staging(0) && u.fs == x.fs
    ensures u.rows == x.rows[op := Leased(x.rows[op], b.owner, until)] && |CopyOf(u, op, b)| == |x.rows[op].targets|
  {
    hide Inv;
    var y := FirstStops(x, op, a);
    StepKeepsInv(y, BeginStage(op, b, until));
    u := After(y, BeginStage(op, b, until));
  }

  lemma LastSaveOverACommit(e: State, op: Id, b: Worker, until: int)
    requires At(e, op, b) && PcOf(e, op, b) == Staging(|e.rows[op].targets|) && MaySave(e, op, b) && op in e.domain
    ensures Enabled(e, SaveDetached(op, b, until))
    ensures var end := After(e, SaveDetached(op, b, until));
            op in end.rows && end.rows[op].phase == Detached && op in end.domain && !Whole(end, op)
  {
  }

  /** Staging started beside a staging worker: the domain commits, and then the row says that it has
      not. */
  lemma StageBesideStaging(s: State, op: Id, a: Worker, b: Worker, claim: Step) returns (states: seq<State>, steps: seq<Step>)
    requires Disturbs(s, op, a, b, claim) && claim.BeginStage?
    requires PcOf(s, op, a).Staging? || PcOf(s, op, a).Renamed?
    ensures BreaksAfter(states, steps, s, claim)
    ensures op in Last(states).domain && op in Last(states).rows && Last(states).rows[op].phase == Detached
  {
    hide Inv, Enabled, After, Guarantee, Whole, LooksLike, SameRecord, InTrash, TargetsOK, OnlyEffects;
    var ideal: State;
    states, steps, ideal := FirstCommits(s, op, a, b, claim);
    var u := IdealSecondStage(ideal, op, a, b, claim.until);
    SecondLooksFresh(Last(states), ideal, u, op, a, b, claim.until);
    var ideals, effects := EveryThreadReachesItsEnd(u, op, b, claim.until);
    var rest := Unnoticed(Last(states), ideals, effects, op, b);
    DomainIsKept(Last(states), Last(rest), op, b);
    EndOfStaging(Last(rest), Last(ideals), op, b);
    states := ContinuesWithRun(states, steps, s, claim, rest, effects, op, b);
    steps := steps + effects;
    LastSaveOverACommit(Last(states), op, b, claim.until);
    states := ContinuesWith(states, steps, s, claim, SaveDetached(op, b, claim.until));
    NotWhole(Last(states), op);
    steps := steps + [SaveDetached(op, b, claim.until)];
  }

  lemma DomainIsKept(s: State, e: State, op: Id, who: Worker)
    requires OnlyEffects(s, e, op, who)
    ensures e.domain == s.domain
  {
  }

  lemma EndOfStaging(e: State, ideal: State, op: Id, b: Worker)
    requires Inv(ideal) && AtEnd(ideal, op, b) && LooksLike(e, ideal, op, b) && (PcOf(ideal, op, b).Staging? || PcOf(ideal, op, b).Renamed?)
    ensures At(e, op, b) && PcOf(e, op, b) == Staging(|e.rows[op].targets|) && MaySave(e, op, b)
  {
    OnlyThread(ideal, op, b, b);
    hide Inv;
  }

  lemma SecondLooksFresh(e: State, x: State, u: State, op: Id, a: Worker, b: Worker, until: int)
    requires At(e, op, b) && PcOf(e, op, b) == Staging(0) && op in x.rows && e.fs == x.fs
    requires e.rows == x.rows[op := e.rows[op]] && SameTargets(x.rows[op].targets, e.rows[op].targets)
    requires e.rows[op].owner == b.owner && |CopyOf(e, op, b)| == |e.rows[op].targets|
    requires At(u, op, b) && PcOf(u, op, b) == Staging(0) && u.fs == x.fs
    requires u.rows == x.rows[op := Leased(x.rows[op], b.owner, until)] && |CopyOf(u, op, b)| == |x.rows[op].targets|
    ensures LooksLike(e, u, op, b)
  {
  }

  /** The first of two staging workers finishes and commits; the second one has not moved. */
  lemma FirstCommits(s: State, op: Id, a: Worker, b: Worker, claim: Step) returns (states: seq<State>, steps: seq<Step>, ideal: State)
    requires Disturbs(s, op, a, b, claim) && claim.BeginStage?
    requires PcOf(s, op, a).Staging? || PcOf(s, op, a).Renamed?
    ensures Continues(states, steps, s, claim)
    ensures Inv(ideal) && At(ideal, op, a) && PcOf(ideal, op, a).Staging?
    ensures var e := Last(states);
            && At(e, op, b) && PcOf(e, op, b) == Staging(0) && e.fs == ideal.fs && op in e.domain
            && e.rows == ideal.rows[op := e.rows[op]] && SameTargets(ideal.rows[op].targets, e.rows[op].targets)
            && e.rows[op].owner == b.owner && |CopyOf(e, op, b)| == |e.rows[op].targets|
  {
    hide Inv, Enabled, After, Guarantee, Whole, LooksLike, SameRecord, InTrash, TargetsOK;
    states, steps, ideal := FirstFinishes(s, op, a, b, claim);
    var e := Last(states);
    AtBoth(e, ideal, op, a);
    EndOfProgram(e, ideal, op, a);
    ExactCopy(e, ideal, op, a);
    SecondStartsAtTheTop(s, op, b, claim);
    PhaseIsKept(After(s, claim), e, op, a);
    LooksAre(e, ideal, op, a);
    LastSaveOfStaging(e, op, a, b, claim.until);
    states := ContinuesWith(states, steps, s, claim, SaveDetached(op, a, claim.until));
    steps := steps + [SaveDetached(op, a, claim.until)];
    var staged := Last(states);
    CommitOfAStaged(staged, op, a, b);
    var commit := Commit(op, a, staged.rows[op].kind, staged.rows[op].subject);
    states := ContinuesWith(states, steps, s, claim, commit);
    steps := steps + [commit];
  }

  lemma LooksAre(s: State, u: State, op: Id, who: Worker)
    requires LooksLike(s, u, op, who)
    ensures s.fs == u.fs && op in u.rows && s.rows == u.rows[op := s.rows[op]] && SameTargets(u.rows[op].targets, s.rows[op].targets)
  {
  }

  // ---- the exact condition --------------------------------------------------------------------

  /** Taking the lease away from a thread breaks a promise at once. */
  lemma LostLease(s: State, op: Id, a: Worker, claim: Step)
    requires Inv(s) && At(s, op, a) && Enabled(s, claim) && IsClaim(claim) && claim.op == op && claim.who.owner != a.owner
    ensures BreaksAfter([s, After(s, claim)], [claim], s, claim)
  {
    ContinuesAlone(s, claim);
    assert At(After(s, claim), op, a) && !Proceeds(After(s, claim), op, a);
  }

  lemma PhaseFitsTheProgram(s: State, op: Id, a: Worker, claim: Step)
    requires Inv(s) && At(s, op, a) && Enabled(s, claim) && IsClaim(claim) && claim.op == op
    ensures claim.BeginStage? ==> !PcOf(s, op, a).Staged? && !PcOf(s, op, a).Reaping? && !PcOf(s, op, a).Reaped?
    ensures claim.BeginRollback? ==> !PcOf(s, op, a).Reaping? && !PcOf(s, op, a).Reaped?
    ensures claim.BeginReap? ==> PcOf(s, op, a).Reaping? || PcOf(s, op, a).Reaped?
  {
    OnlyThread(s, op, a, a);
  }

  lemma DisturbingClaimBreaks(s: State, op: Id, a: Worker, claim: Step) returns (states: seq<State>, steps: seq<Step>)
    requires Inv(s) && At(s, op, a) && Enabled(s, claim) && IsClaim(claim) && claim.op == op && a != claim.who
    requires claim.Refresh? ==> a.owner != claim.who.owner
    ensures BreaksAfter(states, steps, s, claim)
  {
    hide Inv, Enabled, After, Guarantee;
    if a.owner != claim.who.owner {
      LostLease(s, op, a, claim);
      return [s, After(s, claim)], [claim];
    }
    PhaseFitsTheProgram(s, op, a, claim);
    var pc := PcOf(s, op, a);
    if claim.BeginReap? {
      states, steps := ReapBesideReaping(s, op, a, claim.who, claim);
    } else if pc.Restoring? || pc.PutBack? {
      if claim.BeginStage? {
        states, steps := StageBesideRestoring(s, op, a, claim.who, claim);
      } else {
        states, steps := RollbackBesideRestoring(s, op, a, claim.who, claim);
      }
    } else if claim.BeginStage? {
      states, steps := StageBesideStaging(s, op, a, claim.who, claim);
    } else {
      states, steps := RollbackBesideStaging(s, op, a, claim.who, claim);
    }
  }

  lemma NotAPublication(s: State, step: Step)
    requires IsClaim(step)
    ensures Current(s, step)
  {
  }

  lemma LaterClaimsKeepInv(states: seq<State>, steps: seq<Step>, s: State, step: Step)
    requires Inv(s) && Continues(states, steps, s, step) && Alone(s, step) && IsClaim(step)
    ensures Guarantee(Last(states))
  {
    hide Inv, Enabled, After, Guarantee;
    NotAPublication(s, step);
    RunKeepsInv(states, steps, |states| - 1);
    InvGuarantees(Last(states));
  }

  /** A claim is harmless, whatever follows, exactly when it is made alone. */
  lemma ClaimIsHarmlessIffAlone(s: State, step: Step)
    requires Inv(s) && Enabled(s, step) && IsClaim(step)
    ensures KeepsGuarantee(s, step) <==> Alone(s, step)
  {
    hide Inv, Enabled, After, Guarantee;
    if Alone(s, step) {
      forall states, steps | Continues(states, steps, s, step) ensures Guarantee(Last(states)) {
        LaterClaimsKeepInv(states, steps, s, step);
      }
    } else {
      var w :| Thread(step.op, w) in s.threads && w != step.who && !(step.Refresh? && w.owner == step.who.owner);
      var states, steps := DisturbingClaimBreaks(s, step.op, w, step);
      assert Continues(states, steps, s, step) && !Guarantee(Last(states));
    }
  }

  // ---- a committed operation is rolled back ---------------------------------------------------

  lemma RollbackMayStart(s: State, op: Id, b: Worker, until: int)
    requires op in s.rows && s.rows[op].owner == b.owner && b.owner.process in s.live && s.rows[op].phase == Detached
    requires forall w :: Thread(op, w) !in s.threads
    ensures Enabled(s, BeginRollback(op, b, until)) && Careful(s, BeginRollback(op, b, until))
  {
  }

  /** The restoring worker as it would be if the staged one had stopped before. */
  lemma IdealRestorer(s: State, op: Id, a: Worker, b: Worker, until: int) returns (u: State)
    requires Inv(s) && At(s, op, a) && PcOf(s, op, a) == Staged && a.owner == b.owner
    ensures Inv(u) && At(u, op, b) && PcOf(u, op, b) == Restoring(|s.rows[op].targets|) && u.fs == s.fs
    ensures u.rows == s.rows[op := Leased(s.rows[op], b.owner, until)] && |CopyOf(u, op, b)| == |s.rows[op].targets|
    ensures TargetsOK(s.rows[op]) && AllInTrash(s, op)
  {
    hide Inv, Enabled, After, Receipts;
    StagedFacts(s, op, a);
    var y := FirstStops(s, op, a);
    var step := BeginRollback(op, b, until);
    RollbackMayStart(y, op, b, until);
    StepKeepsInv(y, step);
    u := After(y, step);
    StepHasEffect(y, step);
    ClaimEnters(y, step);
  }

  /** One target is back and the domain has committed beside it. */
  lemma CommitInTheWindow(s: State, op: Id, a: Worker, b: Worker, until: int) returns (states: seq<State>, steps: seq<Step>, ideal: State)
    requires Inv(s) && At(s, op, a) && PcOf(s, op, a) == Staged && a != b && a.owner == b.owner
    ensures Continues(states, steps, s, BeginRollback(op, b, until))
    ensures Inv(ideal) && LooksLike(Last(states), ideal, op, b) && PcOf(ideal, op, b).PutBack? && op in Last(states).domain
  {
    hide Inv, Enabled, After, CommitAccepts, InTrash, TargetsOK;
    var u := IdealRestorer(s, op, a, b, until);
    var s1 := StagedCanStartRollback(s, op, a, b, until);
    ContinuesAlone(s, BeginRollback(op, b, until));
    RestorerLooksTheSame(s, s1, u, op, b, until);
    TrashFollows(s, u, op);
    var u2 := RestorePutsTheLastTargetBack(u, op, b);
    StepKeepsInv(u, PutTargetBack(op, b));
    var s2 := RestorePutsTheLastTargetBack(s1, op, b);
    UnnoticedFiles(s1, u, PutTargetBack(op, b), op, b);
    var commit := Commit(op, a, s.rows[op].kind, s.rows[op].subject);
    StillStaged(s1, s2, op, a, s.rows[op].kind, s.rows[op].subject);
    states := ContinuesWith([s, s1], [BeginRollback(op, b, until)], s, BeginRollback(op, b, until), PutTargetBack(op, b));
    states := ContinuesWith(states, [BeginRollback(op, b, until)] + [PutTargetBack(op, b)], s, BeginRollback(op, b, until), commit);
    steps := [BeginRollback(op, b, until)] + [PutTargetBack(op, b)] + [commit];
    CommitIsNotNoticed(s2, u2, op, a, b, commit);
    ideal := u2;
  }

  lemma RestorerLooksTheSame(s: State, s1: State, u: State, op: Id, b: Worker, until: int)
    requires op in s.rows && Enabled(s, BeginRollback(op, b, until)) && s1 == After(s, BeginRollback(op, b, until))
    requires At(u, op, b) && PcOf(u, op, b) == Restoring(|s.rows[op].targets|) && u.fs == s.fs
    requires u.rows == s.rows[op := Leased(s.rows[op], b.owner, until)] && |CopyOf(u, op, b)| == |s.rows[op].targets|
    ensures LooksLike(s1, u, op, b)
  {
  }

  lemma TrashFollows(s: State, u: State, op: Id)
    requires op in s.rows && TargetsOK(s.rows[op]) && AllInTrash(s, op) && u.fs == s.fs && op in u.rows && u.rows[op].targets == s.rows[op].targets
    ensures TargetsOK(u.rows[op]) && AllInTrash(u, op)
  {
    SavedInTrash(s, u, op);
  }

  lemma CommitIsNotNoticed(s: State, u: State, op: Id, a: Worker, b: Worker, commit: Step)
    requires LooksLike(s, u, op, b) && a != b && Enabled(s, commit) && commit.Commit? && commit.op == op && commit.who == a
    ensures LooksLike(After(s, commit), u, op, b) && op in After(s, commit).domain
  {
  }

  /** From any staged operation a rollback by another worker of the journal, such as a second recovery,
      can end with the domain mutation durable, the operation rolled back and all its targets at their
      origin. */
  lemma SecondRecoveryUndoesACommit(s: State, op: Id, a: Worker, b: Worker, until: int) returns (states: seq<State>, steps: seq<Step>)
    requires Inv(s) && At(s, op, a) && PcOf(s, op, a) == Staged && a != b && a.owner == b.owner
    ensures Continues(states, steps, s, BeginRollback(op, b, until))
    ensures var end := Last(states);
            && op in end.rows && op in end.domain && end.rows[op].phase == RolledBack && AllAtOrigin(end, op)
            && (forall p | p in end.claims :: end.claims[p] != op)
  {
    hide Inv, Enabled, After, LooksLike, AtOrigin, OnlyEffects;
    var ideal: State;
    states, steps, ideal := CommitInTheWindow(s, op, a, b, until);
    AtBoth(Last(states), ideal, op, b);
    var ideals, effects := EveryThreadReachesItsEnd(ideal, op, b, until);
    var rest := Unnoticed(Last(states), ideals, effects, op, b);
    DomainIsKept(Last(states), Last(rest), op, b);
    EndOfRestoring(Last(rest), Last(ideals), op, b);
    states := ContinuesWithRun(states, steps, s, BeginRollback(op, b, until), rest, effects, op, b);
    steps := steps + effects;
    RolledBackOverACommit(Last(states), op, b, until);
    states := ContinuesWith(states, steps, s, BeginRollback(op, b, until), SaveRolledBack(op, b, until));
    steps := steps + [SaveRolledBack(op, b, until)];
  }

  lemma EndOfRestoring(e: State, ideal: State, op: Id, b: Worker)
    requires Inv(ideal) && AtEnd(ideal, op, b) && LooksLike(e, ideal, op, b) && (PcOf(ideal, op, b).Restoring? || PcOf(ideal, op, b).PutBack?)
    ensures At(e, op, b) && PcOf(e, op, b) == Restoring(0) && MaySave(e, op, b) && AllAtOrigin(e, op)
  {
    OnlyThread(ideal, op, b, b);
    hide Inv;
    forall i | 0 <= i < |e.rows[op].targets| ensures AtOrigin(e, op, i) {
      assert AtOrigin(ideal, op, i);
    }
  }

  lemma RolledBackOverACommit(e: State, op: Id, b: Worker, until: int)
    requires At(e, op, b) && PcOf(e, op, b) == Restoring(0) && MaySave(e, op, b) && AllAtOrigin(e, op) && op in e.domain
    ensures Enabled(e, SaveRolledBack(op, b, until))
    ensures var end := After(e, SaveRolledBack(op, b, until));
            && op in end.rows && op in end.domain && end.rows[op].phase == RolledBack && AllAtOrigin(end, op)
            && (forall p | p in end.claims :: end.claims[p] != op)
  {
    var end := After(e, SaveRolledBack(op, b, until));
    forall i | 0 <= i < |end.rows[op].targets| ensures AtOrigin(end, op, i) {
      assert AtOrigin(e, op, i);
    }
  }

  ghost predicate CarefulBut(states: seq<State>, steps: seq<Step>, k: nat)
    requires |states| == |steps| + 1
  {
    forall j | 0 <= j < |steps| && j != k :: Careful(states[j], steps[j])
  }

  /** One more target of a draft measured, nothing else changed. */
  lemma MeasureOne(s: State, s0: State, op: Id, who: Worker, targets: seq<Target>, i: nat)
    requires Drafted(s, s0, op, who, targets, i) && i < |targets|
    ensures var step := Measure(op, who, targets[i]);
            Enabled(s, step) && Careful(s, step) && Drafted(After(s, step), s0, op, who, targets, i + 1)
  {
    var step := Measure(op, who, targets[i]);
    assert targets[..i + 1] == targets[..i] + [targets[i]];
    assert TargetIsSound(s0, targets[i], op, i);
    SoundElsewhere(s, s0, targets[i], op, i);
    forall t | t in targets[..i] ensures Original(t) != Original(targets[i]) {
      var j :| 0 <= j < i && targets[j] == t;
    }
    hide Inv, Matches, TargetIsSound;
    StepKeepsInv(s, step);
  }

  lemma SoundElsewhere(s: State, s0: State, t: Target, op: Id, i: nat)
    requires s.fs == s0.fs && TargetIsSound(s0, t, op, i)
    ensures TargetIsSound(s, t, op, i)
  {
  }

  /** The first `i` targets of an operation are measured, on a journal that is otherwise fresh. */
  ghost predicate Drafted(s: State, s0: State, op: Id, who: Worker, targets: seq<Target>, i: nat) {
    && Inv(s) && Fresh(s0) && TargetsAreSound(s0, op, targets) && i <= |targets| && who.owner.process in s0.live
    && s == s0.(drafts := s.drafts) && DraftOf(s, op, who) == targets[..i]
  }

  lemma {:induction false} MeasuringAll(s: State, s0: State, op: Id, who: Worker, targets: seq<Target>, i: nat)
      returns (states: seq<State>, steps: seq<Step>)
    requires Drafted(s, s0, op, who, targets, i)
    ensures Run(states, steps) && Assumed(states, steps) && states[0] == s && Drafted(Last(states), s0, op, who, targets, |targets|)
    ensures forall k | 0 <= k < |steps| :: steps[k].Measure? && steps[k].op == op && steps[k].who == who
    decreases |targets| - i
  {
    hide Inv, Enabled, After, Careful, Drafted;
    if i == |targets| {
      return [s], [];
    }
    DraftedHas(s, s0, op, who, targets, i);
    MeasureOne(s, s0, op, who, targets, i);
    var step := Measure(op, who, targets[i]);
    var rest, more := MeasuringAll(After(s, step), s0, op, who, targets, i + 1);
    return [s] + rest, [step] + more;
  }

  lemma DraftedHas(s: State, s0: State, op: Id, who: Worker, targets: seq<Target>, i: nat)
    requires Drafted(s, s0, op, who, targets, i)
    ensures i <= |targets| && who.owner.process in s0.live
  {
  }

  lemma NothingDrafted(s: State, op: Id, who: Worker, targets: seq<Target>)
    requires Fresh(s) && TargetsAreSound(s, op, targets) && who.owner.process in s.live
    ensures Drafted(s, s, op, who, targets, 0)
  {
    FreshIsSafe(s);
    hide Inv, TargetsAreSound;
  }

  lemma DraftedStands(s: State, s0: State, op: Id, who: Worker, targets: seq<Target>)
    requires Drafted(s, s0, op, who, targets, |targets|)
    ensures targets != [] && DraftOf(s, op, who) == targets && s == s0.(drafts := s.drafts) && Fresh(s0) && Inv(s)
    ensures who.owner.process in s0.live && forall t | t in targets :: Stands(s, t)
  {
    hide Inv;
    assert targets[..|targets|] == targets;
    forall t | t in targets ensures Stands(s, t) {
      var i :| 0 <= i < |targets| && targets[i] == t;
      assert TargetIsSound(s0, targets[i], op, i);
    }
  }

  lemma BeginOnADraft(s: State, s0: State, op: Id, who: Worker, targets: seq<Target>, until: int)
    requires Drafted(s, s0, op, who, targets, |targets|)
    ensures var step := Begin(op, who, "", "", targets, until);
            && Enabled(s, step) && Careful(s, step) && Inv(After(s, step)) && After(s, step).rows.Keys == {op} && After(s, step).rows[op].phase == Intent
            && After(s, step).rows[op].targets == targets
            && After(s, step).rows[op].owner == who.owner && After(s, step).live == s0.live && After(s, step).threads == map[] && After(s, step).fs == s0.fs && After(s, step).now == s0.now
  {
    DraftedStands(s, s0, op, who, targets);
    hide Inv, Drafted, Stands, Originals, Alone;
    var step := Begin(op, who, "", "", targets, until);
    NotAClaim(s, step);
    StepKeepsInv(s, step);
  }

  lemma StageOnItsOwn(s: State, op: Id, who: Worker, until: int)
    requires Inv(s) && op in s.rows && s.rows[op].phase == Intent && s.rows[op].owner == who.owner && who.owner.process in s.live && s.threads == map[]
    ensures var step := BeginStage(op, who, until);
            && Enabled(s, step) && Careful(s, step) && Inv(After(s, step)) && At(After(s, step), op, who) && PcOf(After(s, step), op, who) == Staging(0)
            && After(s, step).rows.Keys == s.rows.Keys && After(s, step).rows[op].targets == s.rows[op].targets
            && After(s, step).fs == s.fs && After(s, step).live == s.live && After(s, step).now == s.now && After(s, step).rows[op].expires == until
  {
    hide Inv;
    StepKeepsInv(s, BeginStage(op, who, until));
  }

  lemma LastSaveKeepsInv(s: State, op: Id, who: Worker, until: int)
    requires Inv(s) && AtEnd(s, op, who) && PcOf(s, op, who).Staging?
    ensures Enabled(s, SaveDetached(op, who, until)) && Inv(After(s, SaveDetached(op, who, until)))
    ensures After(s, SaveDetached(op, who, until)).rows.Keys == s.rows.Keys
    ensures After(s, SaveDetached(op, who, until)).rows[op].targets == s.rows[op].targets
    ensures At(After(s, SaveDetached(op, who, until)), op, who) && PcOf(After(s, SaveDetached(op, who, until)), op, who) == Staged
  {
    hide Inv, PcOK, Matches, Reserved, NoConflict, CanClaim, Receipts, Receipted;
    OnlyThread(s, op, who, who);
    SaveMarksNone(s.rows[op].targets);
    StepKeepsInv(s, SaveDetached(op, who, until));
  }

  lemma Joined(states: seq<State>, steps: seq<Step>, more: seq<State>, next: seq<Step>)
    requires Run(states, steps) && Run(more, next) && Last(states) == more[0]
    ensures Run(states + more[1..], steps + next) && Last(states + more[1..]) == Last(more) && (states + more[1..])[0] == states[0]
    ensures forall k | 0 <= k < |states| :: (states + more[1..])[k] == states[k]
    ensures forall k | 0 <= k < |more| :: (states + more[1..])[|steps| + k] == more[k]
  {
    hide Enabled, After;
    var all := states + more[1..];
    assert forall k | 0 <= k < |more| :: all[|steps| + k] == more[k];
    forall k | 0 <= k < |steps + next| ensures Enabled(all[k], (steps + next)[k]) && all[k + 1] == After(all[k], (steps + next)[k]) {
      if k >= |steps| {
        assert all[k] == more[k - |steps|] && all[k + 1] == more[k - |steps| + 1];
      }
    }
  }

  /** A request that has yet to measure its targets publishes its operation and starts to stage it. */
  lemma StagingIsReachable(s: State, s0: State, op: Id, a: Worker, targets: seq<Target>, until: int) returns (states: seq<State>, steps: seq<Step>)
    requires Drafted(s, s0, op, a, targets, 0)
    ensures Run(states, steps) && Assumed(states, steps) && states[0] == s && |steps| > 0
    ensures Inv(Last(states)) && At(Last(states), op, a) && PcOf(Last(states), op, a) == Staging(0)
    ensures Last(states).fs == s0.fs && Last(states).live == s0.live && Last(states).now == s0.now && Last(states).rows[op].expires == until
    ensures steps[|steps| - 1] == BeginStage(op, a, until) && OwnSteps(steps, op, a) && Last(states).rows.Keys == {op} && Last(states).rows[op].targets == targets
  {
    hide Inv, Enabled, After, Fresh, TargetsAreSound, Careful, Drafted;
    states, steps := MeasuringAll(s, s0, op, a, targets, 0);
    var drafted := Last(states);
    DraftedHas(drafted, s0, op, a, targets, |targets|);
    BeginOnADraft(drafted, s0, op, a, targets, until);
    states, steps := Carefully(states, steps, Begin(op, a, "", "", targets, until));
    StageOnItsOwn(Last(states), op, a, until);
    states, steps := Carefully(states, steps, BeginStage(op, a, until));
  }

  /** Steps of one worker about one operation, claims and publication included. */
  predicate OwnSteps(steps: seq<Step>, op: Id, who: Worker) {
    forall k | 0 <= k < |steps| :: IsOwn(steps[k], op, who)
  }

  predicate IsOwn(step: Step, op: Id, who: Worker) {
    (HasSubject(step) || step.Measure?) && step.op == op && step.who == who
  }

  lemma Carefully(states: seq<State>, steps: seq<Step>, step: Step) returns (states': seq<State>, steps': seq<Step>)
    requires Run(states, steps) && Assumed(states, steps) && Enabled(Last(states), step) && Careful(Last(states), step)
    ensures Run(states', steps') && Assumed(states', steps') && states'[0] == states[0]
    ensures states' == states + [After(Last(states), step)] && steps' == steps + [step]
  {
    hide Enabled, After, Careful;
    states', steps' := states + [After(Last(states), step)], steps + [step];
  }

  /** And it stages it. */
  lemma StagedIsReachable(s: State, s0: State, op: Id, a: Worker, targets: seq<Target>, until: int) returns (states: seq<State>, steps: seq<Step>)
    requires Drafted(s, s0, op, a, targets, 0)
    ensures Run(states, steps) && Assumed(states, steps) && states[0] == s
    ensures Inv(Last(states)) && At(Last(states), op, a) && PcOf(Last(states), op, a) == Staged
    ensures OwnSteps(steps, op, a) && Last(states).rows.Keys == {op} && SameTargets(targets, Last(states).rows[op].targets)
  {
    hide Inv, Enabled, After, Careful, Drafted;
    states, steps := StagingIsReachable(s, s0, op, a, targets, until);
    var rest, effects := EveryThreadReachesItsEnd(Last(states), op, a, until);
    EffectsAreCareful(rest, effects, op, a);
    states, steps := CarefulRun(states, steps, rest, effects);
    LastSaveKeepsInv(Last(states), op, a, until);
    EffectIsCareful(Last(states), SaveDetached(op, a, until));
    states, steps := Carefully(states, steps, SaveDetached(op, a, until));
  }

  lemma EffectIsCareful(s: State, step: Step)
    requires !IsClaim(step) && !step.Begin?
    ensures Careful(s, step)
  {
  }

  lemma EffectsAreCareful(states: seq<State>, steps: seq<Step>, op: Id, who: Worker)
    requires Solo(states, steps, op, who)
    ensures Assumed(states, steps)
  {
    hide Enabled, After, Careful;
    forall k | 0 <= k < |steps| ensures Careful(states[k], steps[k]) {
      EffectIsCareful(states[k], steps[k]);
    }
  }

  lemma CarefulRun(states: seq<State>, steps: seq<Step>, more: seq<State>, next: seq<Step>) returns (states': seq<State>, steps': seq<Step>)
    requires Run(states, steps) && Assumed(states, steps) && Run(more, next) && Assumed(more, next) && Last(states) == more[0]
    ensures Run(states', steps') && Assumed(states', steps') && states'[0] == states[0] && Last(states') == Last(more)
    ensures steps' == steps + next
  {
    hide Enabled, After, Careful;
    Joined(states, steps, more, next);
    states', steps' := states + more[1..], steps + next;
    forall k | 0 <= k < |steps'| ensures Careful(states'[k], steps'[k]) {
      if k >= |steps| {
        assert states'[k] == more[k - |steps|] && steps'[k] == next[k - |steps|];
      }
    }
  }

  /** So from an empty journal on one host a single claim beside a live handler of the same process
      ends with the domain mutation durable and the operation rolled back. */
  lemma ACommitIsUndone(s: State, op: Id, a: Worker, b: Worker, targets: seq<Target>, until: int)
      returns (states: seq<State>, steps: seq<Step>, k: nat)
    requires Fresh(s) && a.owner.process in s.live && TargetsAreSound(s, op, targets) && a != b && a.owner == b.owner
    ensures Run(states, steps) && states[0] == s && k < |steps| && steps[k] == BeginRollback(op, b, until) && CarefulBut(states, steps, k)
    ensures var end := Last(states);
            && op in end.rows && op in end.domain && end.rows[op].phase == RolledBack && AllAtOrigin(end, op)
            && (forall p | p in end.claims :: end.claims[p] != op)
  {
    hide Inv, Enabled, After, Fresh, TargetsAreSound, AllAtOrigin, Careful, Drafted;
    NothingDrafted(s, op, a, targets);
    var first, opening := StagedIsReachable(s, s, op, a, targets, until);
    var rest, undone := SecondRecoveryUndoesACommit(Last(first), op, a, b, until);
    Joined(first, opening, rest, undone);
    states, steps, k := first + rest[1..], opening + undone, |opening|;
    forall j | 0 <= j < |steps| && j != k ensures Careful(states[j], steps[j]) {
      if j > k {
        assert states[j] == rest[j - k] && steps[j] == undone[j - k];
      }
    }
  }

  function Example(): State {
    State(map[Child(Path("", [Named("data")]), Named("job")) := Entry(7, File(3))], map[], map[], {Process(0, 0)}, map[], map[], 0, {})
  }

  lemma OwnPlacesDiffer(t: Target)
    requires ProperRoot(t.root)
    ensures Parking(t, 0, 0) != Original(t)
  {
    ParkingPlacesAreUnique(t.root, t.name, 0, 0, t.root, t.name, 0, 0);
  }

  /** A data directory with one job's file in it and one process: everything above is reachable. */
  lemma ItHappens() returns (states: seq<State>, steps: seq<Step>, k: nat)
    ensures Run(states, steps) && states[0] == Example() && k < |steps| && CarefulBut(states, steps, k)
    ensures var end := Last(states); 0 in end.rows && 0 in end.domain && end.rows[0].phase == RolledBack && AllAtOrigin(end, 0)
  {
    var target := Target(Path("", [Named("data")]), Named("job"), 7, 3, 1, Planned);
    var owner := Owner(0, Process(0, 0));
    OwnPlacesDiffer(target);
    assert TargetIsSound(Example(), target, 0, 0);
    states, steps, k := ACommitIsUndone(Example(), 0, Worker(owner, 0), Worker(owner, 1), [target], 60);
  }
}
