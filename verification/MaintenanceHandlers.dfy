/** The client program shared by the three destructive API handlers: publish an intent, stage it,
    commit the domain mutation, and either finalize or undo. */
module MaintenanceHandlers {

  import opened Wrappers
  import opened StoragePaths
  import opened StorageTree
  import opened MaintenanceModel
  import opened MaintenanceSafety
  import opened MaintenanceHistory
  import opened MaintenanceRuns
  import opened MaintenanceJournals
  import opened LatePublication

  /** The domain transaction: its own checks may refuse (`*`), and it marks the operation
      committed together with its mutation, without looking at the lease. */
  method CommitDomain(journal: MaintenanceJournal, op: Id, kind: string, subject: string, ghost h: History) returns (r: Result<(), Error>)
    requires journal.Working(op, Staged, h)
    modifies journal.storage
    ensures journal.Ready() && journal.storage.Since(h, op, journal.me)
    ensures journal.storage.fs == old(journal.storage.fs) && journal.storage.claims == old(journal.storage.claims)
    ensures op in journal.storage.rows && journal.storage.rows[op].owner == journal.owner
    ensures r.Ok? ==> CommitAccepts(old(journal.storage.rows[op]), kind, subject)
                      && journal.storage.rows == old(journal.storage.rows)[op := old(journal.storage.rows[op]).(phase := Committed)]
                      && journal.storage.domain == old(journal.storage.domain) + {op}
    ensures r.Err? ==> journal.storage.rows == old(journal.storage.rows) && journal.storage.domain == old(journal.storage.domain)
  {
    hide Inv, Run, PcOK;
    var storage := journal.storage;
    if * {
      return Err(Conflict);
    }
    if !CommitAccepts(storage.rows[op], kind, subject) {
      return Err(Refused);
    }
    storage.rows := storage.rows[op := storage.rows[op].(phase := Committed)];
    storage.domain := storage.domain + {op};
    storage.threads := storage.threads - {Thread(op, journal.me)};
    storage.Record(Commit(op, journal.me, kind, subject), h);
    return Ok(());
  }

  /** A handler that fails before its domain commit gives every file and every claim back. */
  lemma UndoneHandlerChangesNothing(states: seq<State>, steps: seq<Step>, from: nat, op: Id, who: Worker)
    requires Run(states, steps) && from < |states|
    requires forall k | from <= k < |states| :: Inv(states[k])
    requires forall k | from <= k < |steps| :: OwnStep(steps[k], op, who) && !steps[k].Reap?
    requires op in states[from].rows && states[from].rows[op].owner == who.owner
    requires AllHome(states[from], op) && AllHome(Last(states), op)
    ensures Last(states).fs == states[from].fs
  {
    hide Inv, Enabled, After;
    forall k | from <= k < |states| ensures Conserved(states[from], states[k], op) {
      SegmentConserves(states, steps, from, k, op);
    }
    SameHomesSameFiles(states[from], Last(states), op);
  }

  lemma {:induction false} SegmentConserves(states: seq<State>, steps: seq<Step>, from: nat, k: nat, op: Id)
    requires Run(states, steps) && from <= k < |states|
    requires forall j | from <= j < |states| :: Inv(states[j])
    requires forall j | from <= j < |steps| :: HasSubject(steps[j]) && steps[j].op == op && !steps[j].Begin? && !steps[j].Reap?
    requires op in states[from].rows
    ensures Conserved(states[from], states[k], op)
  {
    hide Inv, Enabled, After;
    if from < k {
      SegmentConserves(states, steps, from, k - 1, op);
      StepConserves(states[k - 1], steps[k - 1], op);
      ConservedIsTransitive(states[from], states[k - 1], states[k], op);
    }
  }

  /** Adding and dropping the claims of a fresh operation changes nothing. */
  lemma ClaimsOfANewOperation(s: State, op: Id, who: Worker, row: Row)
    requires op !in s.rows && NoConflict(s, row.targets) && Inv(Published(s, op, who, row))
    ensures Unclaimed(Published(s, op, who, row).claims, op) == s.claims
  {
    hide Inv, Originals, NoConflict, ClaimsOK;
    var claims := Published(s, op, who, row).claims;
    assert ClaimsOK(Published(s, op, who, row)) by { ClaimsAreExact(Published(s, op, who, row)); }
    forall p | p in s.claims ensures p !in Originals(row.targets) && s.claims[p] != op {
      NotClaimedTwice(s, row.targets, p);
      if s.claims[p] == op {
        ClaimedByItsOwnRow(Published(s, op, who, row), op, p);
      }
    }
    AddedAndDropped(s.claims, Originals(row.targets), op);
  }

  lemma ClaimsAreExact(s: State)
    requires Inv(s)
    ensures ClaimsOK(s)
  {
  }

  lemma AddedAndDropped(claims: map<Path, Id>, added: set<Path>, op: Id)
    requires forall p | p in claims :: p !in added && claims[p] != op
    ensures Unclaimed(claims + (map p | p in added :: op), op) == claims
  {
    var all := claims + (map p | p in added :: op);
    assert Unclaimed(all, op).Keys == claims.Keys;
  }

  lemma NotClaimedTwice(s: State, targets: seq<Target>, p: Path)
    requires NoConflict(s, targets) && p in s.claims
    ensures p !in Originals(targets)
  {
  }

  lemma ClaimedByItsOwnRow(s: State, op: Id, p: Path)
    requires ClaimsOK(s) && p in s.claims && s.claims[p] == op && op in s.rows
    ensures p in Originals(s.rows[op].targets)
  {
  }

  /** The guarded part of a request: detach every target, then commit the domain mutation. */
  method StageAndCommit(journal: MaintenanceJournal, op: Id, kind: string, subject: string, ghost h: History) returns (r: Result<(), Error>)
    requires journal.Ready() && journal.storage.Since(h, op, journal.me)
    requires op in journal.storage.rows && journal.storage.rows[op].owner == journal.owner && journal.storage.rows[op].phase == Intent
    requires h.safe ==> NobodyElse(Last(h.states), op, journal.me)
    modifies journal.storage
    ensures journal.Ready() && journal.storage.Since(h, op, journal.me) && journal.storage.claims == old(journal.storage.claims)
    ensures op in journal.storage.rows && journal.storage.rows[op].owner == journal.owner
    ensures journal.storage.domain == if r.Ok? then old(journal.storage.domain) + {op} else old(journal.storage.domain)
    ensures h.safe ==> NobodyElse(journal.storage.Snap(), op, journal.me)
    ensures if r.Ok? then journal.storage.rows[op].phase == Committed else journal.storage.rows[op].phase in {Intent, Detached}
  {
    hide Inv, Run, Enabled, After, CanClaim, NobodyElse;
    if h.safe {
      journal.storage.StillNobodyElse(h, op, journal.me);
    }
    var staged := journal.Stage(op, h);
    if staged.Err? {
      r := Err(staged.error);
    } else {
      r := CommitDomain(journal, op, kind, subject, h);
    }
    if h.safe {
      journal.storage.StillNobodyElse(h, op, journal.me);
    }
  }

  /** How a request ends whose intent appeared, with every target at home, as moment `p`: all or
      nothing, and recoverable at every moment on the way. */
  ghost predicate AllOrNothingFrom(states: seq<State>, p: nat, op: Id, done: bool)
    requires 0 < p < |states|
  {
    var e := Last(states);
    && op in e.rows
    && (forall k | p <= k < |states| :: Inv(states[k]))
    && (if done then op in e.domain && (e.rows[op].phase == Committed || Erased(states, p, op))
        else op !in e.domain && (e.rows[op].phase == Intent || e.rows[op].phase == Detached || Undone(states, p, op)))
  }

  ghost predicate Erased(states: seq<State>, p: nat, op: Id)
    requires 0 < p < |states| && op in Last(states).rows
  {
    Last(states).rows[op].phase == Finalized && AllGone(Last(states), op) && Last(states).claims == states[p - 1].claims
  }

  ghost predicate Undone(states: seq<State>, p: nat, op: Id)
    requires 0 < p < |states| && op in Last(states).rows
  {
    Last(states).rows[op].phase == RolledBack && Last(states).fs == states[p].fs && Last(states).claims == states[p - 1].claims
  }

  /** How it ends if a target had departed by then: the intent stays with its claims, for ever. */
  ghost predicate StrandedFrom(states: seq<State>, p: nat, op: Id)
    requires p < |states|
  {
    Last(states).claims == states[p].claims && Last(states).domain == states[p].domain
    && exists i: nat :: Stranded(Last(states), op, i)
  }

  ghost predicate SomeDeparted(s: State, op: Id) {
    op in s.rows && exists i: nat :: i < |s.rows[op].targets| && Original(s.rows[op].targets[i]) !in s.fs
  }

  lemma DepartedStaysStranded(states: seq<State>, steps: seq<Step>, p: nat, op: Id) returns (i: nat)
    requires Run(states, steps) && 0 < p < |states| && steps[p - 1].Begin? && steps[p - 1].op == op
    requires Inv(states[p - 1]) && SomeDeparted(states[p], op)
    ensures Stranded(Last(states), op, i)
  {
    hide Inv, After, Stranded, Run;
    StepOfRun(states, steps, p - 1);
    BeginAfter(states[p - 1], steps[p - 1]);
    BeginFiles(states[p - 1], steps[p - 1]);
    i :| i < |states[p].rows[op].targets| && Original(states[p].rows[op].targets[i]) !in states[p].fs;
    LatePublicationIsStranded(states[p - 1], steps[p - 1], i);
    StrandedForEver(states, steps, p, |states| - 1, op, i);
  }

  lemma StepOfRun(states: seq<State>, steps: seq<Step>, k: nat)
    requires Run(states, steps) && k + 1 < |states|
    ensures |states| == |steps| + 1 && Enabled(states[k], steps[k]) && states[k + 1] == After(states[k], steps[k])
  {
  }

  lemma NobodyInsideYet(states: seq<State>, steps: seq<Step>, p: nat, op: Id, who: Worker)
    requires Run(states, steps) && 0 < p < |states| && steps[p - 1].Begin? && steps[p - 1].op == op
    requires Inv(states[p - 1])
    ensures NobodyElse(states[p], op, who)
  {
    hide Inv, After, Run;
    StepOfRun(states, steps, p - 1);
    NobodyIsInside(states[p - 1], steps[p - 1]);
  }

  /** The intent appeared as the last step of the history. */
  ghost predicate JustPublished(states: seq<State>, steps: seq<Step>, p: nat, op: Id, who: Worker) {
    && |states| == |steps| + 1 && 0 < p == |steps| && steps[p - 1].Begin? && steps[p - 1].op == op
    && op in states[p].rows && states[p].rows[op].phase == Intent && states[p].rows[op].owner == who.owner
    && states[p] == Published(states[p - 1], op, who, states[p].rows[op])
  }

  lemma HomeIsSafe(states: seq<State>, steps: seq<Step>, p: nat, op: Id, who: Worker)
    requires Run(states, steps) && JustPublished(states, steps, p, op, who) && Inv(states[p - 1]) && AllHome(states[p], op)
    ensures Inv(states[p]) && NobodyElse(states[p], op, who) && op !in states[p].domain
    ensures Unclaimed(states[p].claims, op) == states[p - 1].claims
  {
    hide Inv, After, Run, AllHome, NoConflict, Enabled, Current, Originals;
    StepOfRun(states, steps, p - 1);
    PublicationKeepsInvIffCurrent(states[p - 1], steps[p - 1]);
    AllHomeIffCurrent(states[p - 1], steps[p - 1]);
    NobodyInsideYet(states, steps, p, op, who);
    DomainIsPhase(states[p], op);
    NewAndFree(states[p - 1], steps[p - 1]);
    BeginAfter(states[p - 1], steps[p - 1]);
    ClaimsOfANewOperation(states[p - 1], op, who, states[p].rows[op]);
  }

  lemma NewAndFree(s: State, step: Step)
    requires Enabled(s, step) && step.Begin?
    ensures step.op !in s.rows && NoConflict(s, step.targets)
  {
  }

  /** What a handler does when its operation did not commit. */
  method Undo(journal: MaintenanceJournal, op: Id, ghost h: History, ghost p: nat)
    requires journal.Ready() && journal.storage.Since(h, op, journal.me) && h.moves
    requires |h.states| == p + 1 && JustPublished(h.states, h.steps, p, op, journal.me)
    requires op in journal.storage.rows && journal.storage.rows[op].phase in {Intent, Detached}
    requires journal.storage.claims == h.states[p].claims && journal.storage.domain == h.states[p].domain
    requires h.safe ==> NobodyElse(journal.storage.Snap(), op, journal.me) && AllHome(h.states[p], op) && op !in h.states[p].domain
    requires h.safe ==> Unclaimed(h.states[p].claims, op) == h.states[p - 1].claims
    modifies journal.storage
    ensures journal.Ready() && journal.storage.Since(h, op, journal.me) && op in journal.storage.rows
    ensures h.safe ==> AllOrNothingFrom(journal.storage.states, p, op, false)
    ensures Inv(h.states[p - 1]) && SomeDeparted(h.states[p], op) ==> StrandedFrom(journal.storage.states, p, op)
  {
    hide Inv, Run, Enabled, After, AllGone, AllHome, CanClaim, Stranded, SomeDeparted, Published, NobodyElse, Unclaimed;
    var storage := journal.storage;
    var undone := journal.Rollback(op, h);
    if h.safe && undone.Ok? {
      UndoneHandlerChangesNothing(storage.states, storage.steps, p, op, journal.me);
    }
    if Inv(h.states[p - 1]) && SomeDeparted(h.states[p], op) {
      ghost var i := DepartedStaysStranded(storage.states, storage.steps, p, op);
      IntentRow(storage.Snap(), op, i);
    }
  }

  /** The rest of a request, from the moment `p` at which its intent appeared. */
  method Proceed(journal: MaintenanceJournal, op: Id, kind: string, subject: string, ghost p: nat) returns (r: Result<(), Error>)
    requires journal.Ready() && JustPublished(journal.storage.states, journal.storage.steps, p, op, journal.me)
    modifies journal.storage
    ensures journal.Ready() && old(journal.storage.states) <= journal.storage.states && old(journal.storage.steps) <= journal.storage.steps
    ensures op in journal.storage.rows
    ensures Inv(journal.storage.states[p - 1]) && AllHome(journal.storage.states[p], op) ==>
              AllOrNothingFrom(journal.storage.states, p, op, r.Ok?)
    ensures Inv(journal.storage.states[p - 1]) && SomeDeparted(journal.storage.states[p], op) ==>
              r.Err? && StrandedFrom(journal.storage.states, p, op)
  {
    hide Inv, Run, Enabled, After, AllGone, AllHome, CanClaim, Stranded, SomeDeparted, Published, NobodyElse, Unclaimed;
    var storage := journal.storage;
    ghost var published := storage.Snap();
    ghost var safe := Inv(storage.states[p - 1]) && AllHome(published, op);
    ghost var departed := Inv(storage.states[p - 1]) && SomeDeparted(published, op);
    if safe {
      HomeIsSafe(storage.states, storage.steps, p, op, journal.me);
    }
    ghost var moves := History(storage.states, storage.steps, safe, true);
    var outcome := StageAndCommit(journal, op, kind, subject, moves);
    if departed {
      ghost var i := DepartedStaysStranded(storage.states, storage.steps, p, op);
      assert outcome.Err? by { IntentRow(storage.Snap(), op, i); }
    }
    if outcome.Err? {
      Undo(journal, op, moves, p);
      return outcome;
    }
    ghost var reaping := History(storage.states, storage.steps, safe, false);
    var finalized := journal.Finalize(op, reaping);
    return Ok(());
  }

  /** One destructive request, as `cleanup_job`, `purge_terminal_job` and
      `delete_completed_release` run it, while `others` act after each of its measurements. A failed
      finalization is swallowed: the committed row stays for a later recovery. `p` is the moment at
      which the intent appeared. */
  method RemoveTargets(journal: MaintenanceJournal, op: Id, kind: string, subject: string, specs: seq<Spec>, others: nat -> seq<Step>)
    returns (r: Result<(), Error>, ghost p: nat)
    requires journal.Ready() && op !in journal.storage.rows && Thread(op, journal.me) !in journal.storage.drafts
    modifies journal.storage
    ensures journal.Ready() && old(journal.storage.states) <= journal.storage.states && old(journal.storage.steps) <= journal.storage.steps
    ensures op !in journal.storage.rows ==> r.Err? && (Quiet(others) ==> journal.storage.Snap() == old(journal.storage.Snap()))
    ensures op in journal.storage.rows ==>
              old(|journal.storage.states|) <= p < |journal.storage.states|
              && journal.storage.steps[p - 1].Begin? && journal.storage.steps[p - 1].op == op
    // which of the two ends it is was decided when the intent appeared
    ensures op in journal.storage.rows && old(Inv(journal.storage.Snap())) ==>
              HomeIffTimely(journal.storage.states[..p + 1], journal.storage.steps[..p], old(|journal.storage.steps|), op, journal.me)
    ensures op in journal.storage.rows && Inv(journal.storage.states[p - 1]) && AllHome(journal.storage.states[p], op) ==>
              AllOrNothingFrom(journal.storage.states, p, op, r.Ok?)
    ensures op in journal.storage.rows && Inv(journal.storage.states[p - 1]) && SomeDeparted(journal.storage.states[p], op) ==>
              r.Err? && StrandedFrom(journal.storage.states, p, op)
    // undisturbed, it is the good one
    ensures Quiet(others) && old(Inv(journal.storage.Snap())) ==> journal.Covered(old(|journal.storage.states|))
    ensures Quiet(others) && old(Inv(journal.storage.Snap())) && op in journal.storage.rows ==>
              AllOrNothingFrom(journal.storage.states, p, op, r.Ok?)
              && journal.storage.states[p].fs == old(journal.storage.fs) && journal.storage.states[p - 1].claims == old(journal.storage.claims)
  {
    hide Inv, Run, Enabled, After, AllGone, AllHome, CanClaim, HomeIffTimely, Stranded, NobodyElse, SomeDeparted,
      NoConflict, Foreign, OfBegin, Describes, Originals, Contested, StrandedFrom, Erased, Undone;
    p := 0;
    var storage := journal.storage;
    ghost var start := storage.Snap();
    var begun := journal.Begin(op, kind, subject, specs, others);
    if begun.Err? {
      return Err(begun.error), 0;
    }
    p := |storage.steps|;
    ghost var states, steps := storage.states, storage.steps;
    r := Proceed(journal, op, kind, subject, p);
    assert storage.states[..p + 1] == states && storage.steps[..p] == steps;
  }

  /** A service recovers before anything else, and does not start if that fails. One stranded
      operation that it may claim is enough. */
  method StartService(journal: MaintenanceJournal) returns (r: Result<(), Error>)
    requires journal.Ready()
    modifies journal.storage
    ensures journal.Ready() && old(journal.storage.states) <= journal.storage.states
    ensures forall op, i: nat | old(Stranded(journal.storage.Snap(), op, i)) && op in old(journal.storage.rows)
                                && CanClaim(old(journal.storage.Snap()), old(journal.storage.rows)[op], journal.owner) ::
              r.Err? && Stranded(journal.storage.Snap(), op, i)
    ensures old(Inv(journal.storage.Snap()) && AllUndisputed(journal.storage.Snap(), journal.me)) ==>
              (r.Ok? ==> Settled(journal.storage.Snap(), journal.owner)) && (r.Err? ==> r.error == IoFailure)
  {
    hide Inv, Run, CanClaim, Stranded, Reconciled, AllUndisputed;
    var storage := journal.storage;
    ghost var start, n := storage.Snap(), |storage.states| - 1;
    r := journal.Recover();
    forall op, i: nat | Stranded(start, op, i) && op in start.rows && CanClaim(start, start.rows[op], journal.owner)
      ensures r.Err? && Stranded(storage.Snap(), op, i)
    {
      StrandedForEver(storage.states, storage.steps, n, |storage.states| - 1, op, i);
      assert Last(storage.states) == storage.Snap();
      IntentRow(start, op, i);
      IntentRow(storage.Snap(), op, i);
    }
  }
}
