/** The journal itself, in the form of its source: methods that rename, delete and save rows one
    effect at a time. Every effect is also recorded as a step of `MaintenanceModel`, so each
    method is a run of that machine and may be cut off after any of its effects. */
module MaintenanceJournals {

  import opened Wrappers
  import opened StoragePaths
  import opened StorageTree
  import opened MaintenanceModel
  import opened MaintenanceSafety
  import opened MaintenanceHistory
  import opened MaintenanceRuns

  datatype Error = NotFound | Busy | BothPlaces | Missing | Changed | Refused | Duplicate | LeaseLost | Conflict | IoFailure

  /** A target a client asks for: a child of an owned root. */
  datatype Spec = Spec(root: Path, name: Component)

  predicate Describes(specs: seq<Spec>, targets: seq<Target>) {
    |specs| == |targets| && forall i | 0 <= i < |specs| :: targets[i].root == specs[i].root && targets[i].name == specs[i].name
  }

  /** What a claim is for: the program it enters. */
  datatype Use = Look | ToStage | ToRestore | ToReap

  lemma MarkingKeepsTargets(a: seq<Target>, b: seq<Target>, i: nat, receipt: Receipt)
    requires SameTargets(a, b) && i < |b|
    ensures SameTargets(a, b[i := b[i].(receipt := receipt)])
  {
  }

  lemma UnfinishedTargetIsSomewhere(s: State, op: Id, i: nat)
    requires Inv(s) && op in s.rows && i < |s.rows[op].targets|
    requires s.rows[op].phase == Intent || s.rows[op].phase == Detached
    ensures AtOrigin(s, op, i) || InTrash(s, op, i)
  {
    assert RowOK(s, op);
  }

  lemma CommittedTargetIsNotAtOrigin(s: State, op: Id, i: nat)
    requires Inv(s) && op in s.rows && i < |s.rows[op].targets| && s.rows[op].phase == Committed
    ensures InTrash(s, op, i) || Gone(s, op, i)
  {
    assert RowOK(s, op);
  }

  ghost predicate AllHome(s: State, op: Id) {
    op in s.rows && forall i | 0 <= i < |s.rows[op].targets| :: AtOrigin(s, op, i)
  }

  ghost predicate AllGone(s: State, op: Id) {
    op in s.rows && forall i | 0 <= i < |s.rows[op].targets| :: Gone(s, op, i)
  }

  lemma DomainIsPhase(s: State, op: Id)
    requires Inv(s) && op in s.rows
    ensures op in s.domain <==> s.rows[op].phase == Committed || s.rows[op].phase == Finalized
  {
    assert RowOK(s, op);
  }

  /** The fate of one operation in one recovery pass from `start`: skipped if its holder may still
      be alive, otherwise ended as its domain transaction decided, with all its targets alike. */
  ghost predicate Reconciled(start: State, s: State, op: Id, who: Owner) {
    && op in start.rows && op in s.rows
    && SameTargets(start.rows[op].targets, s.rows[op].targets)
    && if !CanClaim(start, start.rows[op], who) then s.rows[op] == start.rows[op]
       else if op in start.domain then s.rows[op].phase == Finalized && AllGone(s, op)
       else s.rows[op].phase == RolledBack && AllHome(s, op)
  }

  lemma SameClaimability(a: State, b: State, op: Id, who: Owner)
    requires op in a.rows && op in b.rows && a.live == b.live && a.now == b.now
    ensures a.rows[op] == b.rows[op] ==> (CanClaim(a, a.rows[op], who) <==> CanClaim(b, b.rows[op], who))
  {
  }

  lemma NowReconciled(start: State, s: State, op: Id, who: Owner, claimed: bool)
    requires op in start.rows && op in s.rows && SameTargets(start.rows[op].targets, s.rows[op].targets)
    requires claimed <==> CanClaim(start, start.rows[op], who)
    requires !claimed ==> s.rows[op] == start.rows[op]
    requires claimed ==> if op in start.domain then s.rows[op].phase == Finalized && AllGone(s, op)
                         else s.rows[op].phase == RolledBack && AllHome(s, op)
    ensures Reconciled(start, s, op, who)
  {
  }

  /** Recovering one operation leaves an already reconciled one as it is. */
  lemma StaysReconciled(start: State, before: State, states: seq<State>, steps: seq<Step>, from: nat, op: Id, o: Id, who: Worker)
    requires Inv(start) && op in start.rows && o in start.rows && op != o
    requires Unfinished(start.rows[op]) && Unfinished(start.rows[o])
    requires Run(states, steps) && from < |states| && states[from] == before
    requires op in before.rows && before.rows[op] == start.rows[op] && Reconciled(start, before, o, who.owner)
    requires forall j | from <= j < |steps| :: OwnStep(steps[j], op, who)
    requires o in Last(states).rows && Last(states).rows[o] == before.rows[o]
    ensures Reconciled(start, Last(states), o, who.owner)
  {
    hide Enabled, After, CanClaim, Inv;
    var s := Last(states);
    forall i | 0 <= i < |s.rows[o].targets|
      ensures SameAt(before, s, Original(s.rows[o].targets[i])) && SameAt(before, s, Parking(s.rows[o].targets[i], o, i))
    {
      PlacesStay(start, before, states, steps, from, op, o, who, i);
    }
    assert forall i | 0 <= i < |s.rows[o].targets| :: Gone(before, o, i) <==> Gone(s, o, i);
    assert forall i | 0 <= i < |s.rows[o].targets| :: AtOrigin(before, o, i) <==> AtOrigin(s, o, i);
  }

  lemma PlacesStay(start: State, before: State, states: seq<State>, steps: seq<Step>, from: nat, op: Id, o: Id, who: Worker, i: nat)
    requires Inv(start) && op in start.rows && o in start.rows && op != o
    requires Unfinished(start.rows[op]) && Unfinished(start.rows[o])
    requires Run(states, steps) && from < |states| && states[from] == before
    requires op in before.rows && before.rows[op] == start.rows[op]
    requires o in before.rows && SameTargets(start.rows[o].targets, before.rows[o].targets) && i < |before.rows[o].targets|
    requires forall j | from <= j < |steps| :: OwnStep(steps[j], op, who)
    ensures SameAt(before, Last(states), Original(before.rows[o].targets[i]))
    ensures SameAt(before, Last(states), Parking(before.rows[o].targets[i], o, i))
  {
    hide Enabled, After;
    assert RowOK(start, op) && RowOK(start, o);
    var t := start.rows[o].targets[i];
    assert Original(before.rows[o].targets[i]) == Original(t) && Parking(before.rows[o].targets[i], o, i) == Parking(t, o, i);
    forall j | 0 <= j < |before.rows[op].targets|
      ensures Original(before.rows[op].targets[j]) !in {Original(t), Parking(t, o, i)}
      ensures Parking(before.rows[op].targets[j], op, j) !in {Original(t), Parking(t, o, i)}
    {
      PlacesApart(start, o, i, op, j);
    }
    SegmentStaysInside(states, steps, from, |states| - 1, op, Original(t));
    SegmentStaysInside(states, steps, from, |states| - 1, op, Parking(t, o, i));
  }

  /** Where a recovery pass stands: `pending` operations are untouched, the others reconciled. */
  ghost predicate Pass(start: State, s: State, pending: set<Id>, who: Owner) {
    && s.rows.Keys == start.rows.Keys && s.live == start.live && s.now == start.now && s.domain == start.domain
    && (forall op | op in pending :: op in start.rows && Unfinished(start.rows[op]))
    && (forall op | op in start.rows && (op in pending || !Unfinished(start.rows[op])) :: s.rows[op] == start.rows[op])
    && (forall op, w | op in pending && Thread(op, w) in s.threads :: Thread(op, w) in start.threads)
  }

  ghost predicate PassReconciled(start: State, s: State, pending: set<Id>, who: Owner) {
    forall op | op in start.rows && Unfinished(start.rows[op]) && op !in pending :: Reconciled(start, s, op, who)
  }

  /** No other thread is inside the operation. */
  ghost predicate NobodyElse(s: State, op: Id, who: Worker) {
    forall w | Thread(op, w) in s.threads :: w == who
  }

  /** The assumption of `Alone` for one recovery pass: whatever the pass can claim is abandoned. */
  ghost predicate AllUndisputed(s: State, who: Worker) {
    forall op | op in s.rows && Unfinished(s.rows[op]) && CanClaim(s, s.rows[op], who.owner) :: NobodyElse(s, op, who)
  }

  /** Every operation that the pass has visited and could claim has ended, whatever state it was in. */
  ghost predicate Ended(start: State, s: State, pending: set<Id>, who: Owner) {
    forall op | op in start.rows && Unfinished(start.rows[op]) && op !in pending && CanClaim(start, start.rows[op], who) ::
      op in s.rows && !Unfinished(s.rows[op])
  }

  lemma EndsOneMore(start: State, before: State, s: State, pending: set<Id>, op: Id, who: Owner)
    requires Ended(start, before, pending, who) && Pass(start, before, pending, who) && op in pending
    requires op in s.rows && s.rows == before.rows[op := s.rows[op]]
    requires CanClaim(before, before.rows[op], who) ==> !Unfinished(s.rows[op])
    ensures Ended(start, s, pending - {op}, who)
  {
    SameClaimability(start, before, op, who);
  }

  lemma PassGoesOn(start: State, before: State, states: seq<State>, steps: seq<Step>, from: nat, pending: set<Id>, op: Id, who: Worker, claimed: bool)
    requires Inv(start) && Pass(start, before, pending, who.owner) && PassReconciled(start, before, pending, who.owner) && op in pending
    requires Run(states, steps) && from < |states| && states[from] == before
    requires forall j | from <= j < |steps| :: OwnStep(steps[j], op, who)
    requires Pass(start, Last(states), pending - {op}, who.owner) && Last(states).rows == before.rows[op := Last(states).rows[op]]
    requires SameTargets(before.rows[op].targets, Last(states).rows[op].targets)
    requires claimed <==> CanClaim(before, before.rows[op], who.owner)
    requires !claimed ==> Last(states).rows[op] == before.rows[op]
    requires claimed ==> if op in start.domain then Last(states).rows[op].phase == Finalized && AllGone(Last(states), op)
                         else Last(states).rows[op].phase == RolledBack && AllHome(Last(states), op)
    ensures PassReconciled(start, Last(states), pending - {op}, who.owner)
  {
    hide Inv, Enabled, After, CanClaim, AllGone, AllHome, Run;
    var s := Last(states);
    SameClaimability(start, before, op, who.owner);
    NowReconciled(start, s, op, who.owner, claimed);
    forall o | o in start.rows && Unfinished(start.rows[o]) && o !in pending - {op} ensures Reconciled(start, s, o, who.owner) {
      if o != op {
        StaysReconciled(start, before, states, steps, from, op, o, who);
      }
    }
  }

  /** Nothing is left that this owner could claim: a recovery pass has nothing to do. */
  ghost predicate Settled(s: State, who: Owner) {
    forall op | op in s.rows && Unfinished(s.rows[op]) :: !CanClaim(s, s.rows[op], who)
  }

  /** A completed pass settles the journal, so a further pass changes nothing. */
  lemma NothingLeftToClaim(start: State, s: State, who: Owner)
    requires Pass(start, s, {}, who) && PassReconciled(start, s, {}, who)
    ensures Settled(s, who)
  {
    hide AllGone, AllHome, CanClaim;
    forall op | op in s.rows && Unfinished(s.rows[op]) ensures !CanClaim(s, s.rows[op], who) {
      assert op in start.rows;
      if Unfinished(start.rows[op]) {
        assert Reconciled(start, s, op, who);
        SameClaimability(start, s, op, who);
      }
    }
  }

  lemma CommittedThread(s: State, op: Id, q: Worker)
    requires Inv(s) && At(s, op, q) && (PcOf(s, op, q).Reaping? || PcOf(s, op, q).Reaped?)
    ensures s.rows[op].phase == Committed
  {
    OnlyThread(s, op, q, q);
  }

  lemma PhaseOfThread(s: State, op: Id, q: Worker)
    requires Inv(s) && At(s, op, q)
    ensures PcOK(s, op, PcOf(s, op, q))
  {
    OnlyThread(s, op, q, q);
  }

  /** An earlier point of the history, and what is claimed about the time since then. */
  datatype History = History(states: seq<State>, steps: seq<Step>, safe: bool, moves: bool)

  /** A step of anybody else; nobody else knows the identifier of an operation before its row. */
  predicate Foreign(step: Step, op: Id, who: Worker) {
    if step.Crash? then step.process != who.owner.process
    else if HasSubject(step) || step.Measure? || step.Discard? then step.op != op && step.who != who
    else true
  }

  /** A step of `begin` itself. */
  predicate OfBegin(step: Step, op: Id, who: Worker) {
    (step.Measure? || step.Discard? || step.Begin?) && step.op == op && step.who == who
  }

  lemma ForeignSubject(s: State, step: Step, op: Id, who: Worker)
    requires Enabled(s, step) && Foreign(step, op, who) && HasSubject(step)
    ensures step.op != op
    ensures After(s, step).live == s.live && DraftOf(After(s, step), op, who) == DraftOf(s, op, who)
  {
    hide Enabled, After;
    StepHasEffect(s, step);
  }

  lemma ForeignOther(s: State, step: Step, op: Id, who: Worker)
    requires Enabled(s, step) && Foreign(step, op, who) && !HasSubject(step) && who.owner.process in s.live
    ensures who.owner.process in After(s, step).live && DraftOf(After(s, step), op, who) == DraftOf(s, op, who)
  {
    hide Reserved, TargetIsSound;
  }

  lemma ForeignStep(s: State, step: Step, op: Id, who: Worker)
    requires Enabled(s, step) && Foreign(step, op, who) && op !in s.rows && who.owner.process in s.live
    ensures op !in After(s, step).rows && who.owner.process in After(s, step).live
    ensures DraftOf(After(s, step), op, who) == DraftOf(s, op, who)
  {
    hide Enabled, After, DraftOf, Foreign;
    StepHasEffect(s, step);
    if HasSubject(step) {
      ForeignSubject(s, step, op, who);
    } else {
      ForeignOther(s, step, op, who);
    }
  }

  predicate OwnStep(step: Step, op: Id, who: Worker) {
    HasSubject(step) && step.op == op && step.who == who && !step.Begin?
  }

  /** Some requested target equals, contains or lies within one of an unfinished operation. */
  ghost predicate Contested(s: State, targets: seq<Target>) {
    exists op, i: nat, j: nat :: op in s.rows && Unfinished(s.rows[op]) && i < |s.rows[op].targets| && j < |targets|
      && Meet(Original(targets[j]), Original(s.rows[op].targets[i]))
  }

  ghost predicate Meet(p: Path, q: Path) { Within(p, q) || Within(q, p) }

  /** The two checks of `begin` find what containment says; with exact claims the second one, which
      guards against a lost race, finds nothing that the first one misses. */
  lemma ConflictIsContest(s: State, targets: seq<Target>)
    ensures NoConflict(s, targets) ==> !Contested(s, targets)
    ensures Inv(s) && !NoConflict(s, targets) ==> Contested(s, targets)
  {
    if NoConflict(s, targets) {
      forall op, i: nat, j: nat | op in s.rows && Unfinished(s.rows[op]) && i < |s.rows[op].targets| && j < |targets|
        ensures !Meet(Original(targets[j]), Original(s.rows[op].targets[i]))
      {
        OverlapIsContainment(Original(targets[j]), Original(s.rows[op].targets[i]));
      }
    } else if Inv(s) {
      ConflictIsContested(s, targets);
    }
  }

  lemma ConflictIsContested(s: State, targets: seq<Target>)
    requires ClaimsOK(s) && !NoConflict(s, targets)
    ensures Contested(s, targets)
  {
    if t :| t in targets && Original(t) in s.claims {
      var j :| 0 <= j < |targets| && targets[j] == t;
      var op := s.claims[Original(t)];
      var u :| u in s.rows[op].targets && Original(u) == Original(t);
      var i :| 0 <= i < |s.rows[op].targets| && s.rows[op].targets[i] == u;
      assert Meet(Original(targets[j]), Original(s.rows[op].targets[i]));
    } else {
      var op, i, j :| op in s.rows && Unfinished(s.rows[op]) && 0 <= i < |s.rows[op].targets| && 0 <= j < |targets|
        && Overlap(Original(targets[j]), Original(s.rows[op].targets[i]));
      OverlapIsContainment(Original(targets[j]), Original(s.rows[op].targets[i]));
      assert Meet(Original(targets[j]), Original(s.rows[op].targets[i]));
    }
  }

  /** What a row save writes, seen as a save of the thread's copy. */
  lemma SavedOne(before: State, after: State, op: Id, who: Worker, i: nat, receipt: Receipt, until: int, pc: Pc)
    requires At(before, op, who) && MaySave(before, op, who) && i < |before.rows[op].targets|
    requires CopyOf(before, op, who) == Receipts(before.rows[op].targets)
    requires var targets := before.rows[op].targets[i := before.rows[op].targets[i].(receipt := receipt)];
             after == before.(rows := before.rows[op := before.rows[op].(targets := targets, expires := until)],
                              threads := before.threads[Thread(op, who) := Work(pc, Receipts(targets))])
    ensures after == SaveOne(before, op, who, i, receipt, until, pc)
  {
    hide Receipts, Receipted;
    SaveMarksOne(before.rows[op].targets, i, receipt);
  }

  /** Nobody else does anything between the measurements and the publication. */
  ghost predicate Quiet(others: nat -> seq<Step>) { forall n :: others(n) == [] }

  /** The measurements so far, if nobody has done anything meanwhile. */
  ghost predicate MeasuredQuietly(start: State, s: State, op: Id, who: Worker, records: seq<Target>) {
    && s == start.(drafts := s.drafts) && s.drafts - {Thread(op, who)} == start.drafts
    && (forall i | 0 <= i < |records| :: TargetIsSound(s, records[i], op, i))
    && (forall i, j | 0 <= i < j < |records| :: Original(records[i]) != Original(records[j]))
  }

  lemma MeasuresOneMore(start: State, before: State, s: State, op: Id, who: Worker, records: seq<Target>, t: Target)
    requires MeasuredQuietly(start, before, op, who, records)
    requires s == before.(drafts := before.drafts[Thread(op, who) := records + [t]])
    requires TargetIsSound(s, t, op, |records|) && Original(t) !in Originals(records)
    ensures MeasuredQuietly(start, s, op, who, records + [t])
  {
    MeasuredIsNew(records, t);
    forall i | 0 <= i < |records| ensures TargetIsSound(s, records[i], op, i) {
      StillSound(before, s, records[i], op, i);
    }
  }

  lemma QuietlySound(start: State, s: State, op: Id, who: Worker, records: seq<Target>)
    requires MeasuredQuietly(start, s, op, who, records) && 1 <= |records| <= 1024
    ensures TargetsAreSound(s, op, records)
  {
    hide TargetIsSound;
  }

  lemma QuietMeans(start: State, s: State, op: Id, who: Worker, records: seq<Target>)
    requires MeasuredQuietly(start, s, op, who, records)
    ensures s == start.(drafts := s.drafts) && s.drafts - {Thread(op, who)} == start.drafts
  {
  }

  lemma DescribesOneMore(specs: seq<Spec>, index: nat, records: seq<Target>, t: Target)
    requires index < |specs| && Describes(specs[..index], records) && t.root == specs[index].root && t.name == specs[index].name
    ensures Describes(specs[..index + 1], records + [t])
    ensures specs[..index + 1] == specs[..index] + [specs[index]]
  {
  }

  lemma MeasuredNothing(s: State, op: Id, who: Worker)
    requires Thread(op, who) !in s.drafts
    ensures MeasuredQuietly(s, s, op, who, []) && DraftOf(s, op, who) == [] && Describes([], [])
  {
    assert s.drafts - {Thread(op, who)} == s.drafts;
  }

  lemma QuietPublication(start: State, before: State, op: Id, who: Worker, row: Row)
    requires before == start.(drafts := before.drafts) && before.drafts - {Thread(op, who)} == start.drafts
    ensures Published(before, op, who, row)
         == start.(rows := start.rows[op := row], claims := start.claims + (map p | p in Originals(row.targets) :: op))
  {
  }

  // What the effects of a thread look like to the machine.

  lemma MovesOneAside(s: State, op: Id, who: Worker, i: nat)
    requires At(s, op, who) && PcOf(s, op, who) == Staging(i) && i < |s.rows[op].targets|
    ensures var t := s.rows[op].targets[i];
            && (Original(t) in s.fs && Parking(t, op, i) !in s.fs && Matches(t, s.fs[Original(t)]) ==>
                 Enabled(s, Park(op, who))
                 && After(s, Park(op, who)) == Goto(s.(fs := Renaming(s.fs, Original(t), Parking(t, op, i))), op, who, Renamed(i)))
            && (Original(t) !in s.fs && Parking(t, op, i) in s.fs && Matches(t, s.fs[Parking(t, op, i)]) ==>
                 Enabled(s, SkipPark(op, who)) && After(s, SkipPark(op, who)) == Goto(s, op, who, Renamed(i)))
  {
    hide Matches, Original, Parking, Renaming;
  }

  lemma MovesOneBack(s: State, op: Id, who: Worker, i: nat)
    requires At(s, op, who) && PcOf(s, op, who) == Restoring(i + 1) && i < |s.rows[op].targets|
    ensures var t := s.rows[op].targets[i];
            && (Original(t) !in s.fs && Parking(t, op, i) in s.fs && Matches(t, s.fs[Parking(t, op, i)]) ==>
                 Enabled(s, PutTargetBack(op, who))
                 && After(s, PutTargetBack(op, who)) == Goto(s.(fs := Renaming(s.fs, Parking(t, op, i), Original(t))), op, who, PutBack(i)))
            && (Original(t) in s.fs && Parking(t, op, i) !in s.fs && s.fs[Original(t)].inode == t.inode ==>
                 Enabled(s, SkipPutBack(op, who)) && After(s, SkipPutBack(op, who)) == Goto(s, op, who, PutBack(i)))
  {
    hide Matches, Original, Parking, Renaming;
  }

  lemma DeletesOne(s: State, op: Id, who: Worker, i: nat)
    requires At(s, op, who) && PcOf(s, op, who) == Reaping(i) && i < |s.rows[op].targets|
    ensures var t := s.rows[op].targets[i];
            && (Original(t) !in s.fs && Parking(t, op, i) in s.fs && Matches(t, s.fs[Parking(t, op, i)]) ==>
                 Enabled(s, Reap(op, who)) && After(s, Reap(op, who)) == Goto(s.(fs := s.fs - {Parking(t, op, i)}), op, who, Reaped(i)))
            && (Original(t) !in s.fs && Parking(t, op, i) !in s.fs ==>
                 Enabled(s, SkipReap(op, who)) && After(s, SkipReap(op, who)) == Goto(s, op, who, Reaped(i)))
  {
    hide Matches, Original, Parking;
  }

  lemma EndsOne(s: State, op: Id, who: Worker, until: int)
    requires At(s, op, who) && s.rows[op].owner == who.owner && CopyOf(s, op, who) == Receipts(s.rows[op].targets)
    ensures var n, row := |s.rows[op].targets|, s.rows[op].(expires := until);
            && (PcOf(s, op, who) == Staging(n) ==>
                 Enabled(s, SaveDetached(op, who, until))
                 && After(s, SaveDetached(op, who, until)) == Goto(WithRow(s, op, row.(phase := Detached)), op, who, Staged))
            && (PcOf(s, op, who) == Restoring(0) ==>
                 Enabled(s, SaveRolledBack(op, who, until))
                 && After(s, SaveRolledBack(op, who, until))
                    == Done(WithRow(s, op, row.(phase := RolledBack)), op, who).(claims := Unclaimed(s.claims, op)))
            && (PcOf(s, op, who) == Reaping(n) ==>
                 Enabled(s, SaveFinalized(op, who, until))
                 && After(s, SaveFinalized(op, who, until))
                    == Done(WithRow(s, op, row.(phase := Finalized)), op, who).(claims := Unclaimed(s.claims, op)))
  {
    hide Receipts, Unclaimed;
    SaveMarksNone(s.rows[op].targets);
  }

  /** A thread's own steps start no other thread. */
  lemma OwnStepThreads(s: State, step: Step, op: Id, who: Worker)
    requires Enabled(s, step) && OwnStep(step, op, who)
    ensures forall t | t in After(s, step).threads :: t == Thread(op, who) || t in s.threads
  {
  }

  lemma MeasuredIsNew(records: seq<Target>, t: Target)
    requires Original(t) !in Originals(records)
    ensures forall i | 0 <= i < |records| :: Original(records[i]) != Original(t)
  {
    forall i | 0 <= i < |records| ensures Original(records[i]) != Original(t) {
      assert records[i] in records;
    }
  }

  lemma StillSound(s: State, s': State, t: Target, op: Id, i: nat)
    requires TargetIsSound(s, t, op, i) && s'.fs == s.fs
    ensures TargetIsSound(s', t, op, i)
  {
  }

  lemma SameConflicts(s: State, s': State, targets: seq<Target>)
    requires s'.rows == s.rows && s'.claims == s.claims
    ensures NoConflict(s, targets) <==> NoConflict(s', targets)
  {
  }

  lemma SoundIsHome(s: State, s': State, op: Id, targets: seq<Target>)
    requires TargetsAreSound(s, op, targets) && s'.fs == s.fs && op in s'.rows && s'.rows[op].targets == targets
    ensures AllHome(s', op)
  {
    forall i | 0 <= i < |targets| ensures AtOrigin(s', op, i) {
      assert TargetIsSound(s, targets[i], op, i);
    }
  }

  /** What a publication means, given only that every other step since moment `n` was careful: it is
      safe exactly when every target is at home; and a target whose path nobody else wrote is at home
      exactly when no operation with that path has committed since it was measured. */
  ghost predicate HomeIffTimely(states: seq<State>, steps: seq<Step>, n: nat, op: Id, who: Worker) {
    && |states| == |steps| + 1 && n < |steps|
    && ((forall k | n <= k < |steps| - 1 :: Careful(states[k], steps[k])) ==>
          && (Inv(Last(states)) <==> AllHome(Last(states), op))
          && forall m: nat, i: nat | n <= m && MeasuredAt(states, steps, m, |steps| - 1, op, who, i)
                                     && !Written(steps, m, |steps| - 1, Original(steps[m].target)) ::
               HomeAt(Last(states), op, i) <==> !Overtaken(states, steps, m, |steps| - 1, Original(steps[m].target)))
  }

  predicate HomeAt(s: State, op: Id, i: nat) { op in s.rows && i < |s.rows[op].targets| && AtOrigin(s, op, i) }

  /** A freshly published target is at home exactly when it stands. */
  lemma PublishedIsHomeIff(s: State, step: Step, i: nat)
    requires Inv(s) && Enabled(s, step) && step.Begin? && i < |step.targets|
    ensures HomeAt(After(s, step), step.op, i) <==> Stands(s, step.targets[i])
    ensures step.op in After(s, step).rows && After(s, step).rows[step.op].targets == step.targets
  {
    DraftIsOK(s, step.op, step.who);
    BeginAfter(s, step);
    hide Inv;
  }

  lemma AllHomeIffCurrent(s: State, step: Step)
    requires Inv(s) && Enabled(s, step) && step.Begin?
    ensures AllHome(After(s, step), step.op) <==> Current(s, step)
  {
    hide Inv, Enabled, After, Stands;
    BeginAfter(s, step);
    forall i | 0 <= i < |step.targets|
      ensures HomeAt(After(s, step), step.op, i) <==> Stands(s, step.targets[i])
    {
      PublishedIsHomeIff(s, step, i);
    }
    hide AtOrigin;
    var s', op := After(s, step), step.op;
    if AllHome(s', op) {
      forall t | t in step.targets ensures Stands(s, t) {
        var i :| 0 <= i < |step.targets| && step.targets[i] == t;
        assert HomeAt(s', op, i);
      }
    }
    if Current(s, step) {
      forall i | 0 <= i < |s'.rows[op].targets| ensures AtOrigin(s', op, i) {
        assert step.targets[i] in step.targets;
        assert HomeAt(s', op, i);
      }
    }
  }

  lemma PublicationMeans(states: seq<State>, steps: seq<Step>, n: nat, op: Id, who: Worker)
    requires Run(states, steps) && n < |steps| && Last(steps).Begin? && Last(steps).op == op && Last(steps).who == who && Inv(states[n])
    ensures HomeIffTimely(states, steps, n, op, who)
  {
    hide Inv, Enabled, After, Careful, Current, AllHome, HomeAt, Overtaken, Written, Stands;
    var last := |steps| - 1;
    if forall k | n <= k < last :: Careful(states[k], steps[k]) {
      forall k | n <= k <= last ensures Inv(states[k]) {
        CarefulStepsKeepInv(states, steps, n, k);
      }
      forall k | n <= k < last ensures Current(states[k], steps[k]) {
        CarefulIsCurrent(states[k], steps[k]);
      }
      PublicationKeepsInvIffCurrent(states[last], steps[last]);
      AllHomeIffCurrent(states[last], steps[last]);
      forall m: nat, i: nat | n <= m && MeasuredAt(states, steps, m, last, op, who, i) && !Written(steps, m, last, Original(steps[m].target))
        ensures HomeAt(Last(states), op, i) <==> !Overtaken(states, steps, m, last, Original(steps[m].target))
      {
        PublishedTargetStandsIff(states, steps, last, m, i);
        PublishedIsHomeIff(states[last], steps[last], i);
      }
    }
  }

  lemma CarefulIsCurrent(s: State, step: Step)
    requires Careful(s, step)
    ensures Current(s, step)
  {
  }

  /** The filesystem and the tables the journal shares with every other process. */
  class Storage {
    var fs: map<Path, Entry>
    var rows: map<Id, Row>
    var claims: map<Path, Id>
    var live: set<Process>
    var now: int
    var threads: map<Thread, Work>            // where every thread's program is
    var drafts: map<Thread, seq<Target>>      // what callers of begin hold in their local variables
    var domain: set<Id>
    ghost var states: seq<State>
    ghost var steps: seq<Step>

    function Snap(): State
      reads this
    {
      State(fs, rows, claims, live, threads, drafts, now, domain)
    }

    ghost predicate Valid()
      reads this
    {
      Run(states, steps) && |states| == |steps| + 1 && Last(states) == Snap()
    }

    /** What has happened since an earlier point of the history: only steps of one operation and one
        owner; nothing was deleted if `moves`; and, if `safe`, every moment satisfies the invariant,
        so that a crash at any of them is recoverable. */
    ghost predicate Since(h: History, op: Id, who: Worker)
      reads this`states, this`steps
    {
      && |states| == |steps| + 1 && |h.states| == |h.steps| + 1
      && h.states <= states && h.steps <= steps
      && Last(states).live == Last(h.states).live && Last(states).now == Last(h.states).now
      && (forall t | t in Last(states).threads :: t == Thread(op, who) || t in Last(h.states).threads)
      && (forall k | |h.steps| <= k < |steps| :: OwnStep(steps[k], op, who) && (h.moves ==> !steps[k].Reap?))
      && (h.safe ==> forall k | |h.states| - 1 <= k < |states| :: Inv(states[k]))
    }

    constructor (now: int, fs: map<Path, Entry>)
      ensures Valid() && Fresh(Snap()) && Inv(Snap()) && this.fs == fs && |states| == 1
    {
      this.now, this.fs, this.live := now, fs, {};
      rows, claims, threads, drafts, domain := map[], map[], map[], map[], {};
      states := [State(fs, map[], map[], {}, map[], map[], now, {})];
      steps := [];
      new;
      FreshIsSafe(Snap());
    }

    lemma SafeNow(h: History, op: Id, who: Worker)
      requires Since(h, op, who) && h.safe
      ensures Inv(Last(states))
    {
      hide Inv;
    }

    lemma StillNobodyElse(h: History, op: Id, who: Worker)
      requires Since(h, op, who) && NobodyElse(Last(h.states), op, who)
      ensures NobodyElse(Last(states), op, who)
    {
      hide Inv;
    }

    /** Append the effect just performed to the history. */
    ghost method Record(step: Step, h: History)
      requires Run(states, steps) && Enabled(Last(states), step) && Snap() == After(Last(states), step)
      requires HasSubject(step) && OwnStep(step, step.op, step.who) && Since(h, step.op, step.who)
      requires (h.moves ==> !step.Reap?) && (h.safe ==> Alone(Last(states), step))
      requires live == Last(states).live && now == Last(states).now
      modifies this`states, this`steps
      ensures Valid() && Since(h, step.op, step.who)
      ensures states == old(states) + [Snap()] && steps == old(steps) + [step]
    {
      hide Inv, After, Enabled;
      OwnStepThreads(Last(states), step, step.op, step.who);
      if h.safe {
        OnlyPublicationsMatter(Last(states), step);
        StepKeepsInv(Last(states), step);
      }
      states := states + [Snap()];
      steps := steps + [step];
    }

    /** Append a step of `begin`, which is not yet, or only now, about a row. */
    ghost method RecordDraft(step: Step)
      requires Run(states, steps) && Enabled(Last(states), step) && Snap() == After(Last(states), step)
      requires step.Measure? || step.Discard? || step.Begin?
      modifies this`states, this`steps
      ensures Valid()
      ensures states == old(states) + [Snap()] && steps == old(steps) + [step]
      ensures old(Inv(Last(states))) && Current(old(Last(states)), step) ==> Inv(Snap())
    {
      hide Inv, After, Enabled, Current;
      if Inv(Last(states)) && Current(Last(states), step) {
        NotAClaim(Last(states), step);
        StepKeepsInv(Last(states), step);
      }
      states := states + [Snap()];
      steps := steps + [step];
    }

    /** One effect of anybody else, if it is possible now. */
    method Allow(step: Step, op: Id, who: Worker)
      requires Valid() && who.owner.process in live && op !in rows && Foreign(step, op, who)
      modifies this
      ensures Valid() && ((Snap() == old(Snap()) && states == old(states) && steps == old(steps))
                          || (states == old(states) + [Snap()] && steps == old(steps) + [step]))
      ensures who.owner.process in live && op !in rows && DraftOf(Snap(), op, who) == old(DraftOf(Snap(), op, who))
    {
      hide Enabled, After, DraftOf, Foreign;
      if Enabled(Snap(), step) {
        ForeignStep(Snap(), step, op, who);
        var next := After(Snap(), step);
        fs, rows, claims, live := next.fs, next.rows, next.claims, next.live;
        threads, drafts, now, domain := next.threads, next.drafts, next.now, next.domain;
        states, steps := states + [next], steps + [step];
        assert Snap() == next;
      }
    }

    /** What other threads, processes and programs do in the meantime: of the given effects, in order,
        those that are possible at their turn and are not this thread's own. */
    method Meanwhile(others: seq<Step>, op: Id, who: Worker)
      requires Valid() && who.owner.process in live && op !in rows
      modifies this
      ensures Valid() && old(states) <= states && old(steps) <= steps
      ensures forall k | |old(steps)| <= k < |steps| :: Foreign(steps[k], op, who)
      ensures who.owner.process in live && op !in rows && DraftOf(Snap(), op, who) == old(DraftOf(Snap(), op, who))
      ensures others == [] ==> Snap() == old(Snap()) && states == old(states) && steps == old(steps)
    {
      hide Run, Enabled, After, DraftOf, Foreign;
      for n := 0 to |others|
        invariant Valid() && old(states) <= states && old(steps) <= steps
        invariant forall k | |old(steps)| <= k < |steps| :: Foreign(steps[k], op, who)
        invariant who.owner.process in live && op !in rows && DraftOf(Snap(), op, who) == old(DraftOf(Snap(), op, who))
        invariant others == [] ==> Snap() == old(Snap()) && states == old(states) && steps == old(steps)
      {
        if Foreign(others[n], op, who) {
          Allow(others[n], op, who);
        }
      }
    }

    /** `os.replace` of a path: it happens as a whole or not at all. */
    method Replace(source: Path, destination: Path) returns (ok: bool)
      modifies this`fs
      ensures ok ==> source in old(fs) && fs == Renaming(old(fs), source, destination)
      ensures !ok ==> fs == old(fs)
    {
      if * {
        return false;
      }
      if source !in fs {
        return false;
      }
      var entry := fs[source];
      fs := (fs - {source})[destination := entry];
      ok := true;
    }

    /** `rmtree` or `unlink` of a path, as one step. */
    method Remove(path: Path) returns (ok: bool)
      modifies this`fs
      ensures ok ==> fs == old(fs) - {path}
      ensures !ok ==> fs == old(fs)
    {
      if * {
        return false;
      }
      fs := fs - {path};
      ok := true;
    }

    /** The identity and usage checks made before every move or deletion. */
    method Verify(path: Path, target: Target) returns (ok: bool)
      requires path in fs
      ensures ok <==> Matches(target, fs[path])
    {
      if fs[path].inode != target.inode {
        return false;
      }
      var bytes, files := TreeUsage(fs[path].tree);
      ok := bytes == target.bytes && files == target.files;
    }
  }

  /** The process's journal as one of its threads uses it: `me` tells the thread from the others. */
  class MaintenanceJournal {
    const storage: Storage
    const owner: Owner
    const me: Worker
    const leaseSeconds: nat
    const data: Path

    constructor (storage: Storage, owner: Owner, serial: nat, leaseSeconds: nat, data: Path)
      ensures this.storage == storage && this.owner == owner && me == Worker(owner, serial)
      ensures this.leaseSeconds == leaseSeconds && this.data == data
    {
      this.storage, this.owner, this.leaseSeconds, this.data := storage, owner, leaseSeconds, data;
      me := Worker(owner, serial);
    }

    /** The storage is consistent with its history, and this process is running. */
    ghost predicate Ready()
      reads this, storage
    {
      storage.Valid() && owner.process in storage.live && me.owner == owner
    }

    /** The assumption of `Alone` for one operation; it matters only if the lease rule lets us in. */
    ghost predicate Undisputed(op: Id)
      reads this, storage
    {
      op in storage.rows && CanClaim(storage.Snap(), storage.rows[op], owner) ==> NobodyElse(storage.Snap(), op, me)
    }

    /** This thread is at `pc`, under its journal's lease, with an exact copy of the receipts. */
    ghost predicate Holds(op: Id, pc: Pc)
      reads this, storage
    {
      At(storage.Snap(), op, me) && PcOf(storage.Snap(), op, me) == pc && storage.rows[op].owner == owner
      && CopyOf(storage.Snap(), op, me) == Receipts(storage.rows[op].targets)
    }

    ghost predicate Working(op: Id, pc: Pc, h: History)
      reads this, storage
    {
      Ready() && Holds(op, pc) && storage.Since(h, op, me)
    }

    /** The lease rule, and the row update it guards. */
    method TakeLease(op: Id) returns (r: Result<Row, Error>)
      modifies storage`rows
      ensures r.Ok? ==> op in old(storage.rows) && CanClaim(old(storage.Snap()), old(storage.rows[op]), owner)
      ensures r.Ok? ==> r.value == Leased(old(storage.rows[op]), owner, storage.now + leaseSeconds) && storage.rows == old(storage.rows)[op := r.value]
      ensures r.Err? ==> storage.rows == old(storage.rows) && r.error in {NotFound, Busy, IoFailure}
      ensures r == Err(NotFound) ==> op !in storage.rows
      ensures r == Err(Busy) <==> op in old(storage.rows) && !CanClaim(old(storage.Snap()), old(storage.rows[op]), owner)
    {
      if op !in storage.rows {
        return Err(NotFound);
      }
      var row := storage.rows[op];
      var sameHost := row.owner.process.host == owner.process.host;
      var ownerAlive := sameHost && row.owner.process in storage.live;
      var expired := row.expires <= storage.now;
      if row.owner != owner && ownerAlive {
        return Err(Busy);
      }
      if row.owner != owner && !sameHost && !expired {
        return Err(Busy);
      }
      if * {
        return Err(IoFailure);
      }
      var claimed := row.(owner := owner, expires := storage.now + leaseSeconds);
      storage.rows := storage.rows[op := claimed];
      return Ok(claimed);
    }

    /** The lease of `op` has been written to its row, and not yet recorded. */
    ghost predicate JustLeased(op: Id, until: int)
      reads this, storage
    {
      && me.owner == owner && Run(storage.states, storage.steps)
      && var before := Last(storage.states);
      && ClaimEnabled(before, op, me)
      && storage.Snap() == WithRow(before, op, Leased(before.rows[op], owner, until))
    }

    method EnterStage(op: Id, until: int, ghost h: History)
      requires JustLeased(op, until) && storage.Since(h, op, me) && (h.safe ==> NobodyElse(Last(storage.states), op, me))
      requires storage.rows[op].phase == Intent
      modifies storage`threads, storage`states, storage`steps
      ensures Working(op, Staging(0), h)
    {
      hide Inv, Run, PcOK, Matches, Reserved, TargetsAreSound, NoConflict, CanClaim, Renaming;
      storage.threads := storage.threads[Thread(op, me) := Work(Staging(0), Receipts(storage.rows[op].targets))];
      storage.Record(BeginStage(op, me, until), h);
    }

    method EnterRollback(op: Id, until: int, ghost h: History)
      requires JustLeased(op, until) && storage.Since(h, op, me) && (h.safe ==> NobodyElse(Last(storage.states), op, me))
      requires storage.rows[op].phase == Intent || storage.rows[op].phase == Detached
      modifies storage`threads, storage`states, storage`steps
      ensures Working(op, Restoring(|storage.rows[op].targets|), h)
    {
      hide Inv, Run, PcOK, Matches, Reserved, TargetsAreSound, NoConflict, CanClaim, Renaming;
      storage.threads := storage.threads[Thread(op, me) := Work(Restoring(|storage.rows[op].targets|), Receipts(storage.rows[op].targets))];
      storage.Record(BeginRollback(op, me, until), h);
    }

    method EnterReap(op: Id, until: int, ghost h: History)
      requires JustLeased(op, until) && storage.Since(h, op, me) && (h.safe ==> NobodyElse(Last(storage.states), op, me))
      requires storage.rows[op].phase == Committed
      modifies storage`threads, storage`states, storage`steps
      ensures Working(op, Reaping(0), h)
    {
      hide Inv, Run, PcOK, Matches, Reserved, TargetsAreSound, NoConflict, CanClaim, Renaming;
      storage.threads := storage.threads[Thread(op, me) := Work(Reaping(0), Receipts(storage.rows[op].targets))];
      storage.Record(BeginReap(op, me, until), h);
    }

    /** Take or renew the lease of an operation, and start the program it was taken for. */
    method Claim(op: Id, use: Use, ghost h: History) returns (r: Result<Row, Error>)
      requires Ready() && storage.Since(h, op, me) && (h.safe ==> Undisputed(op))
      modifies storage
      ensures Ready() && storage.Since(h, op, me)
      ensures storage.fs == old(storage.fs) && storage.claims == old(storage.claims) && storage.domain == old(storage.domain)
      ensures r.Ok? ==> op in old(storage.rows) && CanClaim(old(storage.Snap()), old(storage.rows[op]), owner)
      ensures r.Ok? ==> r.value == Leased(old(storage.rows[op]), owner, r.value.expires) && storage.rows == old(storage.rows)[op := r.value]
      ensures r.Ok? && use == ToStage && r.value.phase == Intent ==> Holds(op, Staging(0))
      ensures r.Ok? && use == ToRestore && (r.value.phase == Intent || r.value.phase == Detached) ==> Holds(op, Restoring(|r.value.targets|))
      ensures r.Ok? && use == ToReap && r.value.phase == Committed ==> Holds(op, Reaping(0))
      ensures use == Look ==> storage.threads == old(storage.threads)
      ensures r.Err? ==> storage.Snap() == old(storage.Snap()) && storage.states == old(storage.states) && r.error in {NotFound, Busy, IoFailure}
      ensures r == Err(NotFound) ==> op !in storage.rows
      ensures r == Err(Busy) <==> op in old(storage.rows) && !CanClaim(old(storage.Snap()), old(storage.rows[op]), owner)
    {
      hide Inv, Enabled, After, Run;
      r := TakeLease(op);
      if r.Ok? {
        var until := storage.now + leaseSeconds;
        if use == ToStage && r.value.phase == Intent {
          EnterStage(op, until, h);
        } else if use == ToRestore && (r.value.phase == Intent || r.value.phase == Detached) {
          EnterRollback(op, until, h);
        } else if use == ToReap && r.value.phase == Committed {
          EnterReap(op, until, h);
        } else {
          EnterNothing(op, until, h);
        }
      }
    }

    ghost method EnterNothing(op: Id, until: int, h: History)
      requires JustLeased(op, until) && storage.Since(h, op, me) && (h.safe ==> NobodyElse(Last(storage.states), op, me))
      modifies storage`states, storage`steps
      ensures Ready() && storage.Since(h, op, me)
    {
      hide Inv, Run, PcOK, Matches, Reserved, TargetsAreSound, NoConflict, CanClaim, Renaming;
      storage.Record(Refresh(op, me, until), h);
    }

    /** Rewrite the targets, and possibly the phase, of an operation this journal still leases. */
    method SaveTargets(op: Id, targets: seq<Target>, phase: Option<Phase>) returns (r: Result<Row, Error>)
      modifies storage`rows, storage`claims
      ensures r.Ok? ==> op in old(storage.rows) && old(storage.rows[op]).owner == owner
      ensures r.Ok? ==> r.value == old(storage.rows[op]).(targets := targets, expires := storage.now + leaseSeconds,
                                     phase := if phase.Some? then phase.value else old(storage.rows[op]).phase)
      ensures r.Ok? ==> storage.rows == old(storage.rows)[op := r.value]
      ensures r.Ok? ==> storage.claims == if phase.Some? && (phase.value.Finalized? || phase.value.RolledBack?)
                                          then Unclaimed(old(storage.claims), op) else old(storage.claims)
      ensures r.Err? ==> storage.rows == old(storage.rows) && storage.claims == old(storage.claims)
      ensures r.Err? ==> r.error == IoFailure || (r.error == LeaseLost && (op in storage.rows ==> storage.rows[op].owner != owner))
    {
      if * {
        return Err(IoFailure);
      }
      if op !in storage.rows || storage.rows[op].owner != owner {
        return Err(LeaseLost);
      }
      var row := storage.rows[op].(targets := targets, expires := storage.now + leaseSeconds);
      if phase.Some? {
        row := row.(phase := phase.value);
        if phase.value.Finalized? || phase.value.RolledBack? {
          storage.claims := map p | p in storage.claims && storage.claims[p] != op :: storage.claims[p];
        }
      }
      storage.rows := storage.rows[op := row];
      return Ok(row);
    }

    /** Record what the loop has just done to one target, or found already done. */
    method RecordMove(op: Id, pc: Pc, ghost step: Step, ghost h: History)
      requires Run(storage.states, storage.steps) && owner.process in storage.live && me.owner == owner && storage.Since(h, op, me)
      requires OwnStep(step, op, me) && !IsClaim(step) && (h.moves ==> !step.Reap?)
      requires var before := Last(storage.states);
               && Enabled(before, step) && At(before, op, me) && before.rows[op].owner == owner && storage.threads == before.threads
               && CopyOf(before, op, me) == Receipts(before.rows[op].targets)
               && storage.rows == before.rows && storage.live == before.live && storage.now == before.now
               && Goto(storage.Snap(), op, me, pc) == After(before, step)
      modifies storage`threads, storage`states, storage`steps
      ensures Working(op, pc, h)
    {
      hide Inv, Run, Enabled, After;
      storage.threads := storage.threads[Thread(op, me) := Work(pc, Receipts(storage.rows[op].targets))];
      storage.Record(step, h);
    }

    /** One turn of the stage loop up to the row save: target `i` ends up in quarantine. */
    method MoveAside(op: Id, i: nat, ghost h: History) returns (r: Result<(), Error>)
      requires Working(op, Staging(i), h) && i < |storage.rows[op].targets|
      modifies storage
      ensures Ready() && storage.Since(h, op, me)
      ensures storage.rows == old(storage.rows) && storage.claims == old(storage.claims) && storage.domain == old(storage.domain)
      ensures r.Ok? ==> Holds(op, Renamed(i))
      ensures r.Err? ==> r.error !in {Busy, Refused, NotFound} && (h.safe ==> r.error == IoFailure)
    {
      hide Inv, Run, PcOK, Original, Parking, Enabled, After, Matches, Receipts, Storage.Since;
      MovesOneAside(storage.Snap(), op, me, i);
      if h.safe {
        storage.SafeNow(h, op, me);
        PhaseOfThread(storage.Snap(), op, me);
        UnfinishedTargetIsSomewhere(storage.Snap(), op, i);
      }
      var target := storage.rows[op].targets[i];
      var original, destination := Original(target), Parking(target, op, i);
      var originalExists := original in storage.fs;
      var destinationExists := destination in storage.fs;
      if originalExists && destinationExists {
        return Err(BothPlaces);
      }
      if originalExists {
        var unchanged_ := storage.Verify(original, target);
        if !unchanged_ {
          return Err(Changed);
        }
        var moved := storage.Replace(original, destination);
        if !moved {
          return Err(IoFailure);
        }
        RecordMove(op, Renamed(i), Park(op, me), h);
      } else if !destinationExists {
        return Err(Missing);
      }
      var intact := storage.Verify(destination, target);
      if !intact {
        return Err(Changed);
      }
      if !originalExists {
        RecordMove(op, Renamed(i), SkipPark(op, me), h);
      }
      return Ok(());
    }

    /** The row save that ends a turn of the stage loop. */
    method SaveMoved(op: Id, i: nat, targets: seq<Target>, ghost h: History) returns (r: Result<(), Error>)
      requires Working(op, Renamed(i), h) && i < |storage.rows[op].targets|
      requires targets == storage.rows[op].targets[i := storage.rows[op].targets[i].(receipt := Moved)]
      modifies storage
      ensures Ready() && storage.Since(h, op, me)
      ensures storage.fs == old(storage.fs) && storage.claims == old(storage.claims) && storage.domain == old(storage.domain)
      ensures r.Ok? ==> Holds(op, Staging(i + 1)) && storage.rows == old(storage.rows)[op := storage.rows[op]]
                        && storage.rows[op] == old(storage.rows[op]).(targets := targets, expires := storage.rows[op].expires)
      ensures r.Err? ==> storage.rows == old(storage.rows) && r.error == IoFailure
    {
      hide Inv, Run, PcOK, Receipts, Receipted, SaveOne, Matches, Reserved, TargetsAreSound, NoConflict, CanClaim, Renaming, Storage.Since;
      ghost var before := storage.Snap();
      var saved := SaveTargets(op, targets, None);
      if saved.Err? {
        return Err(saved.error);
      }
      storage.threads := storage.threads[Thread(op, me) := Work(Staging(i + 1), Receipts(storage.rows[op].targets))];
      SavedOne(before, storage.Snap(), op, me, i, Moved, storage.now + leaseSeconds, Staging(i + 1));
      storage.Record(SavePark(op, me, storage.now + leaseSeconds), h);
      return Ok(());
    }

    method SaveDetachedPhase(op: Id, targets: seq<Target>, ghost h: History) returns (r: Result<(), Error>)
      requires Working(op, Staging(|targets|), h) && storage.rows[op].targets == targets
      modifies storage
      ensures Ready() && storage.Since(h, op, me)
      ensures storage.fs == old(storage.fs) && storage.claims == old(storage.claims) && storage.domain == old(storage.domain)
      ensures r.Ok? ==> Holds(op, Staged) && storage.rows == old(storage.rows)[op := storage.rows[op]]
                        && storage.rows[op] == old(storage.rows[op]).(phase := Detached, expires := storage.rows[op].expires)
      ensures r.Err? ==> storage.rows == old(storage.rows) && r.error == IoFailure
    {
      hide Inv, Run, PcOK, Enabled, After, Receipts, Unclaimed, Storage.Since;
      EndsOne(storage.Snap(), op, me, storage.now + leaseSeconds);
      var saved := SaveTargets(op, targets, Some(Detached));
      if saved.Err? {
        return Err(saved.error);
      }
      storage.threads := storage.threads[Thread(op, me) := Work(Staged, Receipts(storage.rows[op].targets))];
      storage.Record(SaveDetached(op, me, storage.now + leaseSeconds), h);
      return Ok(());
    }

    /** Move every target of an intent into quarantine, saving each receipt, then the phase. */
    method Stage(op: Id, ghost h: History) returns (r: Result<seq<Target>, Error>)
      requires Ready() && storage.Since(h, op, me) && (h.safe ==> Undisputed(op))
      modifies storage
      ensures Ready() && storage.Since(h, op, me)
      ensures storage.claims == old(storage.claims) && storage.domain == old(storage.domain)
      ensures storage.rows.Keys == old(storage.rows).Keys
      ensures r.Ok? ==> op in storage.rows && storage.rows[op].phase == Detached && r.value == storage.rows[op].targets
                        && forall t | t in r.value :: t.receipt == Moved
      ensures op in old(storage.rows) && old(storage.rows[op]).phase == Intent ==>
                && storage.rows[op].kind == old(storage.rows[op]).kind && storage.rows[op].subject == old(storage.rows[op]).subject
                && (storage.rows[op].phase == Intent || storage.rows[op].phase == Detached)
                && (r.Ok? ==> Holds(op, Staged))
      ensures op in old(storage.rows) && old(storage.rows[op]).owner == owner ==> storage.rows[op].owner == owner
    {
      hide Inv, Run, Enabled, After, Receipts, Storage.Since, Storage.Valid;
      var claimed := Claim(op, ToStage, h);
      if claimed.Err? {
        return Err(claimed.error);
      }
      var row := claimed.value;
      if row.phase == Detached {
        if forall t | t in row.targets :: t.receipt == Moved {
          return Ok(row.targets);
        }
        return Err(Refused);
      }
      if row.phase != Intent {
        return Err(Refused);
      }
      r := StageAll(op, h);
    }

    /** The stage loop: quarantine the targets in order, saving each receipt, then the phase. */
    method StageAll(op: Id, ghost h: History) returns (r: Result<seq<Target>, Error>)
      requires op in storage.rows && Working(op, Staging(0), h)
      modifies storage
      ensures Ready() && storage.Since(h, op, me)
      ensures storage.claims == old(storage.claims) && storage.domain == old(storage.domain)
      ensures op in storage.rows && storage.rows == old(storage.rows)[op := storage.rows[op]]
      ensures storage.rows[op] == old(storage.rows[op]).(targets := storage.rows[op].targets, expires := storage.rows[op].expires, phase := storage.rows[op].phase)
      ensures storage.rows[op].phase == if r.Ok? then Detached else old(storage.rows[op]).phase
      ensures r.Ok? ==> Holds(op, Staged) && r.value == storage.rows[op].targets && forall t | t in r.value :: t.receipt == Moved
    {
      hide Inv, Run, Enabled, After, Receipts, Storage.Since, Storage.Valid;
      ghost var row := storage.rows[op];
      var targets := storage.rows[op].targets;
      var i := 0;
      while i < |targets|
        invariant 0 <= i <= |targets|
        invariant Working(op, Staging(i), h)
        invariant storage.rows == old(storage.rows)[op := storage.rows[op]]
        invariant storage.rows[op] == row.(targets := targets, expires := storage.rows[op].expires)
        invariant forall j | 0 <= j < i :: targets[j].receipt == Moved
        invariant storage.claims == old(storage.claims) && storage.domain == old(storage.domain)
      {
        var moved := MoveAside(op, i, h);
        if moved.Err? {
          return Err(moved.error);
        }
        targets := targets[i := targets[i].(receipt := Moved)];
        var saved := SaveMoved(op, i, targets, h);
        if saved.Err? {
          return Err(saved.error);
        }
        i := i + 1;
      }
      var saved := SaveDetachedPhase(op, targets, h);
      if saved.Err? {
        return Err(saved.error);
      }
      return Ok(targets);
    }

    /** One turn of the rollback loop up to the row save: target `i` ends up at its origin. */
    method MoveBack(op: Id, i: nat, ghost h: History) returns (r: Result<(), Error>)
      requires Working(op, Restoring(i + 1), h) && i < |storage.rows[op].targets|
      modifies storage
      ensures Ready() && storage.Since(h, op, me)
      ensures storage.rows == old(storage.rows) && storage.claims == old(storage.claims) && storage.domain == old(storage.domain)
      ensures r.Ok? ==> Holds(op, PutBack(i))
      ensures r.Err? ==> r.error !in {Busy, Refused, NotFound} && (h.safe ==> r.error == IoFailure)
    {
      hide Inv, Run, PcOK, Original, Parking, Enabled, After, Bytes, Files, Receipts, Storage.Since;
      MovesOneBack(storage.Snap(), op, me, i);
      if h.safe {
        storage.SafeNow(h, op, me);
        PhaseOfThread(storage.Snap(), op, me);
        UnfinishedTargetIsSomewhere(storage.Snap(), op, i);
      }
      var target := storage.rows[op].targets[i];
      var original, destination := Original(target), Parking(target, op, i);
      var originalExists := original in storage.fs;
      var destinationExists := destination in storage.fs;
      if originalExists && destinationExists {
        return Err(BothPlaces);
      }
      if destinationExists {
        var unchanged_ := storage.Verify(destination, target);
        if !unchanged_ {
          return Err(Changed);
        }
        var moved := storage.Replace(destination, original);
        if !moved {
          return Err(IoFailure);
        }
        RecordMove(op, PutBack(i), PutTargetBack(op, me), h);
      } else if !originalExists {
        return Err(Missing);
      }
      if storage.fs[original].inode != target.inode {
        return Err(Changed);
      }
      if !destinationExists {
        RecordMove(op, PutBack(i), SkipPutBack(op, me), h);
      }
      return Ok(());
    }

    method SaveRestoredTarget(op: Id, i: nat, targets: seq<Target>, ghost h: History) returns (r: Result<(), Error>)
      requires Working(op, PutBack(i), h) && i < |storage.rows[op].targets|
      requires targets == storage.rows[op].targets[i := storage.rows[op].targets[i].(receipt := Restored)]
      modifies storage
      ensures Ready() && storage.Since(h, op, me)
      ensures storage.fs == old(storage.fs) && storage.claims == old(storage.claims) && storage.domain == old(storage.domain)
      ensures r.Ok? ==> Holds(op, Restoring(i)) && storage.rows == old(storage.rows)[op := storage.rows[op]]
                        && storage.rows[op] == old(storage.rows[op]).(targets := targets, expires := storage.rows[op].expires)
      ensures r.Err? ==> storage.rows == old(storage.rows) && r.error == IoFailure
    {
      hide Inv, Run, PcOK, Receipts, Receipted, SaveOne, Matches, Reserved, TargetsAreSound, NoConflict, CanClaim, Renaming, Storage.Since;
      ghost var before := storage.Snap();
      var saved := SaveTargets(op, targets, None);
      if saved.Err? {
        return Err(saved.error);
      }
      storage.threads := storage.threads[Thread(op, me) := Work(Restoring(i), Receipts(storage.rows[op].targets))];
      SavedOne(before, storage.Snap(), op, me, i, Restored, storage.now + leaseSeconds, Restoring(i));
      storage.Record(SaveRestored(op, me, storage.now + leaseSeconds), h);
      return Ok(());
    }

    method SaveRolledBackPhase(op: Id, targets: seq<Target>, ghost h: History) returns (r: Result<(), Error>)
      requires Working(op, Restoring(0), h) && storage.rows[op].targets == targets
      modifies storage
      ensures Ready() && storage.Since(h, op, me)
      ensures storage.fs == old(storage.fs) && storage.domain == old(storage.domain)
      ensures op in storage.rows && storage.rows == old(storage.rows)[op := storage.rows[op]]
      ensures r.Ok? ==> storage.rows[op] == old(storage.rows[op]).(phase := RolledBack, expires := storage.rows[op].expires)
                        && storage.claims == Unclaimed(old(storage.claims), op)
      ensures r.Ok? && h.safe ==> AllHome(storage.Snap(), op)
      ensures r.Err? ==> storage.rows == old(storage.rows) && storage.claims == old(storage.claims) && r.error == IoFailure
    {
      hide Inv, Run, PcOK, Enabled, After, Receipts, Unclaimed, Storage.Since;
      EndsOne(storage.Snap(), op, me, storage.now + leaseSeconds);
      ghost var before := storage.Snap();
      if h.safe {
        storage.SafeNow(h, op, me);
      }
      var saved := SaveTargets(op, targets, Some(RolledBack));
      if saved.Err? {
        return Err(saved.error);
      }
      storage.threads := storage.threads - {Thread(op, me)};
      ghost var step := SaveRolledBack(op, me, storage.now + leaseSeconds);
      storage.Record(step, h);
      if h.safe {
        EndsAreUniform(before, step);
        PhaseOfThread(before, op, me);
        DomainIsPhase(before, op);
      }
      return Ok(());
    }

    /** Put targets back in reverse order, saving each receipt. */
    method RestoreAll(op: Id, ghost h: History) returns (r: Result<seq<Target>, Error>)
      requires op in storage.rows && Working(op, Restoring(|storage.rows[op].targets|), h)
      modifies storage
      ensures Ready() && storage.Since(h, op, me)
      ensures storage.claims == old(storage.claims) && storage.domain == old(storage.domain)
      ensures op in storage.rows && storage.rows == old(storage.rows)[op := storage.rows[op]]
      ensures storage.rows[op] == old(storage.rows[op]).(targets := storage.rows[op].targets, expires := storage.rows[op].expires)
      ensures SameTargets(old(storage.rows[op]).targets, storage.rows[op].targets)
      ensures r.Ok? ==> Holds(op, Restoring(0)) && storage.rows[op].targets == r.value
      ensures r.Err? ==> r.error !in {Busy, Refused, NotFound} && (h.safe ==> r.error == IoFailure)
    {
      hide Inv, Run, Enabled, After, Receipts, Storage.Since, Storage.Valid;
      ghost var row := storage.rows[op];
      var targets := storage.rows[op].targets;
      var k := |targets|;
      while k > 0
        invariant 0 <= k <= |targets|
        invariant Working(op, Restoring(k), h)
        invariant storage.rows == old(storage.rows)[op := storage.rows[op]]
        invariant storage.rows[op] == row.(targets := targets, expires := storage.rows[op].expires)
        invariant SameTargets(row.targets, targets)
        invariant storage.claims == old(storage.claims) && storage.domain == old(storage.domain)
      {
        var moved := MoveBack(op, k - 1, h);
        if moved.Err? {
          return Err(moved.error);
        }
        MarkingKeepsTargets(row.targets, targets, k - 1, Restored);
        targets := targets[k - 1 := targets[k - 1].(receipt := Restored)];
        var saved := SaveRestoredTarget(op, k - 1, targets, h);
        if saved.Err? {
          return Err(saved.error);
        }
        k := k - 1;
      }
      return Ok(targets);
    }

    /** Undo whatever an uncommitted operation has moved. */
    method Rollback(op: Id, ghost h: History) returns (r: Result<Row, Error>)
      requires Ready() && storage.Since(h, op, me) && (h.safe ==> Undisputed(op))
      modifies storage
      ensures Ready() && storage.Since(h, op, me) && storage.domain == old(storage.domain)
      ensures op !in old(storage.rows) ==> storage.rows == old(storage.rows)
      ensures op in old(storage.rows) ==> op in storage.rows && storage.rows == old(storage.rows)[op := storage.rows[op]]
      ensures op in old(storage.rows) ==> SameTargets(old(storage.rows[op]).targets, storage.rows[op].targets)
      ensures r.Ok? ==> op in old(storage.rows) && storage.rows[op].phase == RolledBack
      ensures r.Ok? && old(storage.rows[op]).phase != RolledBack ==>
                storage.claims == Unclaimed(old(storage.claims), op) && (h.safe ==> AllHome(storage.Snap(), op))
      ensures r.Err? ==> storage.claims == old(storage.claims)
                         && (op in old(storage.rows) ==> storage.rows[op].phase == old(storage.rows[op]).phase)
      ensures r == Err(Busy) ==> op in old(storage.rows) && !CanClaim(old(storage.Snap()), old(storage.rows[op]), owner)
      ensures r == Err(NotFound) ==> op !in old(storage.rows)
      ensures r == Err(Refused) ==> op in old(storage.rows) && (old(storage.rows[op]).phase == Committed || old(storage.rows[op]).phase == Finalized)
      ensures r.Err? && h.safe ==> r.error in {Busy, Refused, NotFound, IoFailure}
    {
      hide Inv, Run, Enabled, After, Receipts, Storage.Since, Storage.Valid;
      var claimed := Claim(op, ToRestore, h);
      if claimed.Err? {
        return Err(claimed.error);
      }
      var row := claimed.value;
      if row.phase == RolledBack {
        return Ok(row);
      }
      if row.phase == Finalized || row.phase == Committed {
        return Err(Refused);
      }
      var restored := RestoreAll(op, h);
      if restored.Err? {
        return Err(restored.error);
      }
      var saved := SaveRolledBackPhase(op, restored.value, h);
      if saved.Err? {
        return Err(saved.error);
      }
      return Ok(storage.rows[op]);
    }

    /** One turn of the finalize loop up to the row save: target `i` exists nowhere any more. */
    method DeleteTarget(op: Id, i: nat, ghost h: History) returns (r: Result<(), Error>)
      requires Working(op, Reaping(i), h) && i < |storage.rows[op].targets| && !h.moves
      modifies storage
      ensures Ready() && storage.Since(h, op, me)
      ensures storage.rows == old(storage.rows) && storage.claims == old(storage.claims) && storage.domain == old(storage.domain)
      ensures r.Ok? ==> Holds(op, Reaped(i))
      ensures r.Err? ==> r.error !in {Busy, Refused, NotFound} && (h.safe ==> r.error == IoFailure)
    {
      hide Inv, Run, PcOK, Original, Parking, Enabled, After, Renaming, Receipts, Storage.Since;
      DeletesOne(storage.Snap(), op, me, i);
      if h.safe {
        storage.SafeNow(h, op, me);
        CommittedThread(storage.Snap(), op, me);
        CommittedTargetIsNotAtOrigin(storage.Snap(), op, i);
      }
      var target := storage.rows[op].targets[i];
      var original, destination := Original(target), Parking(target, op, i);
      var originalExists := original in storage.fs;
      var destinationExists := destination in storage.fs;
      if originalExists {
        return Err(BothPlaces);
      }
      if destinationExists {
        var unchanged_ := storage.Verify(destination, target);
        if !unchanged_ {
          return Err(Changed);
        }
        var removed := storage.Remove(destination);
        if !removed {
          return Err(IoFailure);
        }
        RecordMove(op, Reaped(i), Reap(op, me), h);
      } else {
        RecordMove(op, Reaped(i), SkipReap(op, me), h);
      }
      return Ok(());
    }

    method SaveDeletedTarget(op: Id, i: nat, targets: seq<Target>, ghost h: History) returns (r: Result<(), Error>)
      requires Working(op, Reaped(i), h) && i < |storage.rows[op].targets|
      requires targets == storage.rows[op].targets[i := storage.rows[op].targets[i].(receipt := Deleted)]
      modifies storage
      ensures Ready() && storage.Since(h, op, me)
      ensures storage.fs == old(storage.fs) && storage.claims == old(storage.claims) && storage.domain == old(storage.domain)
      ensures r.Ok? ==> Holds(op, Reaping(i + 1)) && storage.rows == old(storage.rows)[op := storage.rows[op]]
                        && storage.rows[op] == old(storage.rows[op]).(targets := targets, expires := storage.rows[op].expires)
      ensures r.Err? ==> storage.rows == old(storage.rows) && r.error == IoFailure
    {
      hide Inv, Run, PcOK, Receipts, Receipted, SaveOne, Matches, Reserved, TargetsAreSound, NoConflict, CanClaim, Renaming, Storage.Since;
      ghost var before := storage.Snap();
      var saved := SaveTargets(op, targets, None);
      if saved.Err? {
        return Err(saved.error);
      }
      storage.threads := storage.threads[Thread(op, me) := Work(Reaping(i + 1), Receipts(storage.rows[op].targets))];
      SavedOne(before, storage.Snap(), op, me, i, Deleted, storage.now + leaseSeconds, Reaping(i + 1));
      storage.Record(SaveReaped(op, me, storage.now + leaseSeconds), h);
      return Ok(());
    }

    method SaveFinalizedPhase(op: Id, targets: seq<Target>, ghost h: History) returns (r: Result<(), Error>)
      requires Working(op, Reaping(|targets|), h) && storage.rows[op].targets == targets
      modifies storage
      ensures Ready() && storage.Since(h, op, me)
      ensures storage.fs == old(storage.fs) && storage.domain == old(storage.domain)
      ensures op in storage.rows && storage.rows == old(storage.rows)[op := storage.rows[op]]
      ensures r.Ok? ==> storage.rows[op] == old(storage.rows[op]).(phase := Finalized, expires := storage.rows[op].expires)
                        && storage.claims == Unclaimed(old(storage.claims), op)
      ensures r.Ok? && h.safe ==> AllGone(storage.Snap(), op)
      ensures r.Err? ==> storage.rows == old(storage.rows) && storage.claims == old(storage.claims) && r.error == IoFailure
    {
      hide Inv, Run, PcOK, Enabled, After, Receipts, Unclaimed, Storage.Since;
      EndsOne(storage.Snap(), op, me, storage.now + leaseSeconds);
      ghost var before := storage.Snap();
      if h.safe {
        storage.SafeNow(h, op, me);
      }
      var saved := SaveTargets(op, targets, Some(Finalized));
      if saved.Err? {
        return Err(saved.error);
      }
      storage.threads := storage.threads - {Thread(op, me)};
      ghost var step := SaveFinalized(op, me, storage.now + leaseSeconds);
      storage.Record(step, h);
      if h.safe {
        EndsAreUniform(before, step);
        CommittedThread(before, op, me);
        DomainIsPhase(before, op);
      }
      return Ok(());
    }

    /** Delete the quarantined targets in order, saving each receipt. */
    method DeleteAll(op: Id, ghost h: History) returns (r: Result<seq<Target>, Error>)
      requires op in storage.rows && Working(op, Reaping(0), h) && !h.moves
      modifies storage
      ensures Ready() && storage.Since(h, op, me)
      ensures storage.claims == old(storage.claims) && storage.domain == old(storage.domain)
      ensures op in storage.rows && storage.rows == old(storage.rows)[op := storage.rows[op]]
      ensures storage.rows[op] == old(storage.rows[op]).(targets := storage.rows[op].targets, expires := storage.rows[op].expires)
      ensures SameTargets(old(storage.rows[op]).targets, storage.rows[op].targets)
      ensures r.Ok? ==> Holds(op, Reaping(|r.value|)) && storage.rows[op].targets == r.value
      ensures r.Err? ==> r.error !in {Busy, Refused, NotFound} && (h.safe ==> r.error == IoFailure)
    {
      hide Inv, Run, Enabled, After, Receipts, Storage.Since, Storage.Valid;
      ghost var row := storage.rows[op];
      var targets := storage.rows[op].targets;
      var i := 0;
      while i < |targets|
        invariant 0 <= i <= |targets|
        invariant Working(op, Reaping(i), h)
        invariant storage.rows == old(storage.rows)[op := storage.rows[op]]
        invariant storage.rows[op] == row.(targets := targets, expires := storage.rows[op].expires)
        invariant SameTargets(row.targets, targets)
        invariant storage.claims == old(storage.claims) && storage.domain == old(storage.domain)
      {
        var deleted := DeleteTarget(op, i, h);
        if deleted.Err? {
          return Err(deleted.error);
        }
        MarkingKeepsTargets(row.targets, targets, i, Deleted);
        targets := targets[i := targets[i].(receipt := Deleted)];
        var saved := SaveDeletedTarget(op, i, targets, h);
        if saved.Err? {
          return Err(saved.error);
        }
        i := i + 1;
      }
      return Ok(targets);
    }

    /** Delete for good what a committed operation has quarantined. */
    method Finalize(op: Id, ghost h: History) returns (r: Result<Row, Error>)
      requires Ready() && storage.Since(h, op, me) && (h.safe ==> Undisputed(op)) && !h.moves
      modifies storage
      ensures Ready() && storage.Since(h, op, me) && storage.domain == old(storage.domain)
      ensures op !in old(storage.rows) ==> storage.rows == old(storage.rows)
      ensures op in old(storage.rows) ==> op in storage.rows && storage.rows == old(storage.rows)[op := storage.rows[op]]
      ensures op in old(storage.rows) ==> SameTargets(old(storage.rows[op]).targets, storage.rows[op].targets)
      ensures r.Ok? ==> op in old(storage.rows) && storage.rows[op].phase == Finalized
      ensures r.Ok? && old(storage.rows[op]).phase != Finalized ==>
                storage.claims == Unclaimed(old(storage.claims), op) && (h.safe ==> AllGone(storage.Snap(), op))
      ensures r.Err? ==> storage.claims == old(storage.claims)
                         && (op in old(storage.rows) ==> storage.rows[op].phase == old(storage.rows[op]).phase)
      ensures r == Err(Busy) ==> op in old(storage.rows) && !CanClaim(old(storage.Snap()), old(storage.rows[op]), owner)
      ensures r == Err(NotFound) ==> op !in old(storage.rows)
      ensures r == Err(Refused) ==> op in old(storage.rows) && old(storage.rows[op]).phase != Committed
      ensures r.Err? && h.safe ==> r.error in {Busy, Refused, NotFound, IoFailure}
    {
      hide Inv, Run, Enabled, After, Receipts, Storage.Since, Storage.Valid;
      var claimed := Claim(op, ToReap, h);
      if claimed.Err? {
        return Err(claimed.error);
      }
      var row := claimed.value;
      if row.phase == Finalized {
        return Ok(row);
      }
      if row.phase != Committed {
        return Err(Refused);
      }
      var deleted := DeleteAll(op, h);
      if deleted.Err? {
        return Err(deleted.error);
      }
      var saved := SaveFinalizedPhase(op, deleted.value, h);
      if saved.Err? {
        return Err(saved.error);
      }
      return Ok(storage.rows[op]);
    }

    /** `begin` is at work: what has happened since step `n` is its own or somebody else's. */
    ghost predicate Beginning(n: nat, op: Id)
      reads this, storage
    {
      Ready() && n <= |storage.steps| && forall k | n <= k < |storage.steps| :: Foreign(storage.steps[k], op, me) || OfBegin(storage.steps[k], op, me)
    }

    /** One measurement: existence, duplicates, usage, a free parking place, identity. */
    method MeasureTarget(op: Id, index: nat, spec: Spec, ghost n: nat) returns (r: Result<Target, Error>)
      requires Beginning(n, op) && op !in storage.rows && index < 1024 && |DraftOf(storage.Snap(), op, me)| == index
      modifies storage
      ensures Beginning(n, op) && old(storage.states) <= storage.states && old(storage.steps) <= storage.steps
      ensures storage.Snap() == old(storage.Snap()).(drafts := storage.drafts)
      ensures r.Ok? ==> AuthorizedRoot(data, spec.root) && r.value.root == spec.root && r.value.name == spec.name
      ensures r.Ok? ==> TargetIsSound(storage.Snap(), r.value, op, index)
      ensures r.Ok? ==> Original(r.value) !in Originals(old(DraftOf(storage.Snap(), op, me)))
      ensures r.Ok? ==> storage.drafts == old(storage.drafts)[Thread(op, me) := old(DraftOf(storage.Snap(), op, me)) + [r.value]]
      ensures r.Ok? ==> DraftOf(storage.Snap(), op, me) == old(DraftOf(storage.Snap(), op, me)) + [r.value]
      ensures r.Ok? ==> storage.steps == old(storage.steps) + [Measure(op, me, r.value)] && storage.states == old(storage.states) + [storage.Snap()]
      ensures old(Inv(storage.Snap())) ==> Inv(storage.Snap())
      ensures r.Err? ==> storage.Snap() == old(storage.Snap()) && storage.states == old(storage.states) && storage.steps == old(storage.steps)
    {
      hide Run, Inv;
      var draft := DraftOf(storage.Snap(), op, me);
      if !AuthorizedRoot(data, spec.root) {
        return Err(Refused);
      }
      AuthorizedRootsAreProper(data, spec.root);
      var original := Child(spec.root, spec.name);
      if original !in storage.fs {
        return Err(Missing);
      }
      if spec.name == Trash {
        return Err(Refused);
      }
      if original in Originals(draft) {
        return Err(Duplicate);
      }
      var bytes, files := TreeUsage(storage.fs[original].tree);
      if ParkingPlace(spec.root, spec.name, op, index) in storage.fs {
        return Err(BothPlaces);
      }
      var record := Target(spec.root, spec.name, storage.fs[original].inode, bytes, files, Planned);
      storage.drafts := storage.drafts[Thread(op, me) := draft + [record]];
      storage.RecordDraft(Measure(op, me, record));
      return Ok(record);
    }

    /** The measurements are forgotten with the call that made them. */
    method Forget(op: Id, ghost n: nat)
      requires Beginning(n, op)
      modifies storage
      ensures Beginning(n, op) && old(storage.states) <= storage.states && old(storage.steps) <= storage.steps
      ensures storage.Snap() == old(storage.Snap()).(drafts := old(storage.drafts) - {Thread(op, me)})
      ensures old(Inv(storage.Snap())) ==> forall k | |old(storage.states)| <= k < |storage.states| :: Inv(storage.states[k])
    {
      hide Run, Inv;
      if Thread(op, me) in storage.drafts {
        storage.drafts := storage.drafts - {Thread(op, me)};
        storage.RecordDraft(Discard(op, me));
      } else {
        assert storage.drafts - {Thread(op, me)} == storage.drafts;
      }
    }

    /** Measure and describe the targets of a new intent; nothing durable happens yet, and others may
        act after each measurement. */
    method Describe(op: Id, specs: seq<Spec>, others: nat -> seq<Step>, ghost n: nat) returns (r: Result<seq<Target>, Error>)
      requires Beginning(n, op) && op !in storage.rows && Thread(op, me) !in storage.drafts
      modifies storage
      ensures Beginning(n, op) && old(storage.states) <= storage.states && old(storage.steps) <= storage.steps && op !in storage.rows
      ensures r.Ok? ==> Describes(specs, r.value) && r.value == DraftOf(storage.Snap(), op, me) && r.value != []
      ensures r.Ok? ==> forall spec | spec in specs :: AuthorizedRoot(data, spec.root)
      ensures Quiet(others) ==> storage.Snap() == old(storage.Snap()).(drafts := storage.drafts)
                                && storage.drafts - {Thread(op, me)} == old(storage.drafts)
      ensures Quiet(others) && r.Ok? ==> TargetsAreSound(storage.Snap(), op, r.value)
      ensures Quiet(others) && old(Inv(storage.Snap())) ==> forall k | |old(storage.states)| <= k < |storage.states| :: Inv(storage.states[k])
    {
      hide Run, Inv, TargetIsSound, MeasuredQuietly, TargetsAreSound, Foreign, OfBegin, Originals, Describes, DraftOf, AuthorizedRoot;
      if specs == [] || |specs| > 1024 {
        return Err(Refused);
      }
      ghost var start, from := storage.Snap(), |storage.states|;
      var records: seq<Target> := [];
      MeasuredNothing(start, op, me);
      for index := 0 to |specs|
        invariant Beginning(n, op) && old(storage.states) <= storage.states && old(storage.steps) <= storage.steps && op !in storage.rows
        invariant |records| == index && Describes(specs[..index], records) && DraftOf(storage.Snap(), op, me) == records
        invariant forall spec | spec in specs[..index] :: AuthorizedRoot(data, spec.root)
        invariant Quiet(others) ==> MeasuredQuietly(start, storage.Snap(), op, me, records)
        invariant Quiet(others) && Inv(start) ==> Inv(storage.Snap()) && Covered(from)
      {
        ghost var before := storage.Snap();
        var measured := MeasureTarget(op, index, specs[index], n);
        if measured.Err? {
          if Quiet(others) {
            QuietMeans(start, storage.Snap(), op, me, records);
          }
          return Err(measured.error);
        }
        DescribesOneMore(specs, index, records, measured.value);
        if Quiet(others) {
          MeasuresOneMore(start, before, storage.Snap(), op, me, records, measured.value);
        }
        records := records + [measured.value];
        storage.Meanwhile(others(index), op, me);
      }
      assert specs[..|specs|] == specs;
      if Quiet(others) {
        QuietMeans(start, storage.Snap(), op, me, records);
        QuietlySound(start, storage.Snap(), op, me, records);
      }
      return Ok(records);
    }

    /** The two conflict checks of `begin`: path hierarchy, then the claims table. */
    method Conflicts(targets: seq<Target>) returns (conflict: bool)
      ensures !conflict <==> NoConflict(storage.Snap(), targets)
      ensures !conflict ==> !Contested(storage.Snap(), targets) && forall t | t in targets :: Original(t) !in storage.claims
      ensures Inv(storage.Snap()) ==> (conflict <==> Contested(storage.Snap(), targets))
    {
      hide Inv, Contested;
      ConflictIsContest(storage.Snap(), targets);
      conflict :=
        || (exists o | o in storage.rows ::
             Unfinished(storage.rows[o])
             && exists i, j | 0 <= i < |storage.rows[o].targets| && 0 <= j < |targets| ::
                  Overlap(Original(targets[j]), Original(storage.rows[o].targets[i])))
        || exists t | t in targets :: Original(t) in storage.claims;
    }

    /** The insertions of one transaction: the row and one claim a target. Whether the targets are
        still there is not looked at. */
    method Publish(op: Id, row: Row, ghost n: nat) returns (ok: bool)
      requires Beginning(n, op) && op !in storage.rows
      requires row == Row(row.kind, row.subject, Intent, row.targets, owner, row.expires)
      requires row.targets != [] && row.targets == DraftOf(storage.Snap(), op, me) && NoConflict(storage.Snap(), row.targets)
      modifies storage
      ensures Beginning(n, op)
      ensures !ok ==> storage.Snap() == old(storage.Snap()) && storage.states == old(storage.states) && storage.steps == old(storage.steps)
      ensures ok ==> storage.Snap() == Published(old(storage.Snap()), op, me, row)
      ensures ok ==> storage.rows == old(storage.rows)[op := row]
      ensures ok ==> storage.states == old(storage.states) + [storage.Snap()]
      ensures ok ==> storage.steps == old(storage.steps) + [Step.Begin(op, me, row.kind, row.subject, row.targets, row.expires)]
      ensures ok && old(Inv(storage.Snap())) ==> (Inv(storage.Snap()) <==> AllHome(storage.Snap(), op))
    {
      hide Run, Inv, NoConflict, Current, AllHome;
      if * {
        return false;
      }
      ghost var before := storage.Snap();
      storage.rows := storage.rows[op := row];
      storage.claims := storage.claims + (map p | p in Originals(row.targets) :: op);
      storage.drafts := storage.drafts - {Thread(op, me)};
      ghost var step := Step.Begin(op, me, row.kind, row.subject, row.targets, row.expires);
      storage.RecordDraft(step);
      if Inv(before) {
        PublicationKeepsInvIffCurrent(before, step);
        AllHomeIffCurrent(before, step);
      }
      return true;
    }

    /** The transaction of `begin`. */
    method PublishUnlessBusy(op: Id, row: Row, ghost n: nat) returns (r: Result<Row, Error>)
      requires Beginning(n, op) && op !in storage.rows
      requires row == Row(row.kind, row.subject, Intent, row.targets, owner, row.expires)
      requires row.targets != [] && row.targets == DraftOf(storage.Snap(), op, me)
      modifies storage
      ensures Beginning(n, op) && old(storage.states) <= storage.states && old(storage.steps) <= storage.steps
      ensures r.Err? ==> storage.Snap() == old(storage.Snap()).(drafts := old(storage.drafts) - {Thread(op, me)})
      ensures r.Err? && old(Inv(storage.Snap())) ==> forall k | |old(storage.states)| <= k < |storage.states| :: Inv(storage.states[k])
      ensures r.Ok? ==> r.value == row && storage.Snap() == Published(old(storage.Snap()), op, me, row) && storage.rows == old(storage.rows)[op := row]
      ensures r.Ok? ==> NoConflict(old(storage.Snap()), row.targets) && !Contested(old(storage.Snap()), row.targets)
      ensures r.Ok? ==> storage.states == old(storage.states) + [storage.Snap()]
      ensures r.Ok? ==> storage.steps == old(storage.steps) + [Step.Begin(op, me, row.kind, row.subject, row.targets, row.expires)]
      ensures r.Ok? && old(Inv(storage.Snap())) ==> (Inv(storage.Snap()) <==> AllHome(storage.Snap(), op))
    {
      hide Inv, Run, NoConflict, Contested, AllHome, Foreign, OfBegin, DraftOf, Originals, Published;
      var conflict := Conflicts(row.targets);
      if conflict {
        Forget(op, n);
        return Err(Busy);
      }
      var published := Publish(op, row, n);
      if !published {
        Forget(op, n);
        return Err(IoFailure);
      }
      return Ok(row);
    }

    /** Publish the intent: the row with its deterministic parking places, and one claim a target,
        unless an unfinished operation owns an overlapping path. `op` is a fresh identifier. `others` is
        what everybody else does after each measurement. */
    method Begin(op: Id, kind: string, subject: string, specs: seq<Spec>, others: nat -> seq<Step>) returns (r: Result<Row, Error>)
      requires Ready() && op !in storage.rows && Thread(op, me) !in storage.drafts
      modifies storage
      ensures Ready() && old(storage.states) <= storage.states && old(storage.steps) <= storage.steps
      ensures forall k | |old(storage.steps)| <= k < |storage.steps| :: Foreign(storage.steps[k], op, me) || OfBegin(storage.steps[k], op, me)
      ensures r.Err? ==> op !in storage.rows && Thread(op, me) !in storage.drafts
      ensures r.Ok? ==> op in storage.rows && storage.rows[op] == r.value && Describes(specs, r.value.targets)
      ensures r.Ok? ==> r.value == Row(kind, subject, Intent, r.value.targets, owner, r.value.expires)
      // the publication is the last step, and tested only what other operations own
      ensures r.Ok? ==> |storage.steps| > |old(storage.steps)|
                        && Last(storage.steps) == Step.Begin(op, me, kind, subject, r.value.targets, r.value.expires)
                        && !Contested(storage.states[|storage.steps| - 1], r.value.targets)
      ensures r.Ok? ==> storage.Snap() == Published(storage.states[|storage.steps| - 1], op, me, r.value)
      // what that is worth depends on what others did since the measurements
      ensures r.Ok? && old(Inv(storage.Snap())) ==> HomeIffTimely(storage.states, storage.steps, |old(storage.steps)|, op, me)
      // undisturbed, it publishes targets that are all at home, or changes nothing
      ensures Quiet(others) && r.Err? ==> storage.Snap() == old(storage.Snap())
      ensures Quiet(others) && r.Ok? ==>
                storage.Snap() == old(storage.Snap()).(rows := old(storage.rows)[op := r.value],
                                    claims := old(storage.claims) + (map p | p in Originals(r.value.targets) :: op))
                && storage.states[|storage.steps| - 1].claims == old(storage.claims)
                && NoConflict(old(storage.Snap()), r.value.targets) && AllHome(storage.Snap(), op)
      ensures Quiet(others) && old(Inv(storage.Snap())) ==> forall k | |old(storage.states)| <= k < |storage.states| :: Inv(storage.states[k])
    {
      hide Inv, Run, NoConflict, Enabled, After, Contested, HomeIffTimely, AllHome, TargetsAreSound, Foreign, OfBegin, Describes, DraftOf, Originals, Published;
      if kind == "" || subject == "" || |kind| > 80 || |subject| > 256 || exists c | c in kind + subject :: c < ' ' {
        return Err(Refused);
      }
      ghost var n := |storage.steps|;
      var described := Describe(op, specs, others, n);
      if described.Err? {
        Forget(op, n);
        return Err(described.error);
      }
      var row := Row(kind, subject, Intent, described.value, owner, storage.now + leaseSeconds);
      ghost var before := storage.Snap();
      r := PublishUnlessBusy(op, row, n);
      if r.Ok? {
        if Quiet(others) {
          SameConflicts(before, old(storage.Snap()), row.targets);
          QuietPublication(old(storage.Snap()), before, op, me, row);
          SoundIsHome(before, storage.Snap(), op, row.targets);
        }
        if old(Inv(storage.Snap())) {
          PublicationMeans(storage.states, storage.steps, n, op, me);
        }
      }
    }

    /** One abandoned operation: claim it, then finish what its domain transaction decided. */
    method RecoverOne(op: Id, ghost h: History) returns (r: Result<bool, Error>)
      requires Ready() && op in storage.rows && Unfinished(storage.rows[op])
      requires storage.Since(h, op, me) && (h.safe ==> Undisputed(op)) && !h.moves
      modifies storage
      ensures Ready() && storage.Since(h, op, me) && storage.domain == old(storage.domain)
      ensures op in storage.rows && storage.rows == old(storage.rows)[op := storage.rows[op]]
      ensures SameTargets(old(storage.rows[op]).targets, storage.rows[op].targets)
      ensures r == Ok(false) <==> !CanClaim(old(storage.Snap()), old(storage.rows[op]), owner)
      ensures r == Ok(false) ==> storage.Snap() == old(storage.Snap()) && storage.states == old(storage.states)
      ensures r == Ok(true) ==> CanClaim(old(storage.Snap()), old(storage.rows[op]), owner)
      ensures r.Ok? && CanClaim(old(storage.Snap()), old(storage.rows[op]), owner) ==> !Unfinished(storage.rows[op])
      ensures r == Ok(true) && h.safe ==> if op in storage.domain then storage.rows[op].phase == Finalized && AllGone(storage.Snap(), op)
                                          else storage.rows[op].phase == RolledBack && AllHome(storage.Snap(), op)
      ensures r.Err? && h.safe ==> r.error == IoFailure
    {
      hide Inv, Run, Enabled, After, AllGone, AllHome;
      if h.safe {
        DomainIsPhase(storage.Snap(), op);
      }
      var claimed := Claim(op, Look, h);
      if claimed == Err(Busy) {
        return Ok(false);
      }
      if claimed.Err? {
        return Err(claimed.error);
      }
      var done: Result<Row, Error>;
      if claimed.value.phase == Committed {
        done := Finalize(op, h);
      } else {
        done := Rollback(op, h);
      }
      if done.Err? {
        return Err(done.error);
      }
      return Ok(true);
    }

    /** Every moment since `n` satisfies the invariant. */
    ghost predicate Covered(n: nat)
      reads storage
    {
      forall k | n <= k < |storage.states| :: Inv(storage.states[k])
    }

    /** One turn of the recovery loop. */
    method RecoverNext(op: Id, ghost start: State, ghost n: nat, ghost pending: set<Id>, ghost safe: bool) returns (r: Result<(), Error>)
      requires Ready() && Pass(start, storage.Snap(), pending, owner) && op in pending
      requires safe ==> Inv(start) && AllUndisputed(start, me) && Covered(n) && Inv(storage.Snap())
                        && PassReconciled(start, storage.Snap(), pending, owner)
      modifies storage
      ensures Ready() && old(storage.states) <= storage.states && storage.domain == old(storage.domain)
      ensures r.Ok? ==> Pass(start, storage.Snap(), pending - {op}, owner)
      ensures r.Ok? && Ended(start, old(storage.Snap()), pending, owner) ==> Ended(start, storage.Snap(), pending - {op}, owner)
      ensures safe ==> Covered(n) && Inv(storage.Snap())
      ensures safe && r.Ok? ==> PassReconciled(start, storage.Snap(), pending - {op}, owner)
      ensures safe && r.Err? ==> r.error == IoFailure
      ensures !CanClaim(old(storage.Snap()), old(storage.rows[op]), owner) ==>
                r.Ok? && storage.Snap() == old(storage.Snap()) && storage.states == old(storage.states)
    {
      hide Inv, Enabled, After, CanClaim, PassReconciled, AllGone, AllHome, Run;
      ghost var h := History(storage.states, storage.steps, safe, false);
      ghost var before := storage.Snap();
      SameClaimability(start, before, op, owner);
      assert safe ==> Undisputed(op);
      var recovered := RecoverOne(op, h);
      if recovered.Err? {
        return Err(recovered.error);
      }
      assert Pass(start, storage.Snap(), pending - {op}, owner);
      if Ended(start, before, pending, owner) {
        EndsOneMore(start, before, storage.Snap(), pending, op, owner);
      }
      if safe {
        PassGoesOn(start, before, storage.states, storage.steps, |h.states| - 1, pending, op, me, recovered.value);
      }
      return Ok(());
    }

    /** Reconcile every abandoned operation; operations of live owners are skipped. */
    method Recover() returns (r: Result<(), Error>)
      requires Ready()
      modifies storage
      ensures Ready() && old(storage.states) <= storage.states && storage.domain == old(storage.domain)
      ensures r.Ok? ==> Ended(old(storage.Snap()), storage.Snap(), {}, owner)
      ensures old(Inv(storage.Snap()) && AllUndisputed(storage.Snap(), me)) ==>
                && Covered(old(|storage.states|))
                && (r.Err? ==> r.error == IoFailure)
                && (r.Ok? ==> Settled(storage.Snap(), owner)
                              && forall op | op in old(storage.rows) && Unfinished(old(storage.rows)[op]) ::
                                   Reconciled(old(storage.Snap()), storage.Snap(), op, owner))
      ensures old(Settled(storage.Snap(), owner)) ==>
                r.Ok? && storage.Snap() == old(storage.Snap()) && storage.states == old(storage.states)
    {
      hide Inv, AllUndisputed, Reconciled, Run, CanClaim;
      ghost var start, n := storage.Snap(), |storage.states|;
      ghost var safe := Inv(start) && AllUndisputed(start, me);
      var pending := set op | op in storage.rows && Unfinished(storage.rows[op]);
      ghost var all := pending;
      while pending != {}
        invariant pending <= all
        invariant Ready() && old(storage.states) <= storage.states && Pass(start, storage.Snap(), pending, owner)
        invariant Ended(start, storage.Snap(), pending, owner)
        invariant safe ==> Covered(n) && Inv(storage.Snap()) && PassReconciled(start, storage.Snap(), pending, owner)
        invariant Settled(start, owner) ==> storage.Snap() == start && storage.states == old(storage.states)
        decreases |pending|
      {
        var op :| op in pending;
        var recovered := RecoverNext(op, start, n, pending, safe);
        if recovered.Err? {
          return Err(recovered.error);
        }
        pending := pending - {op};
      }
      if safe {
        NothingLeftToClaim(start, storage.Snap(), owner);
      }
      return Ok(());
    }
  }
}
