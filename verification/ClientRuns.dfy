/** The discipline under which the journal keeps its promises, in terms of its clients: one host,
    handlers that work on the operations they published, recovery only while a journal is new, and
    requests of one subject that do not overlap between measurement and publication. */
module ClientRuns {

  import opened Wrappers
  import opened StoragePaths
  import opened StorageTree
  import opened MaintenanceModel
  import opened MaintenanceSafety
  import opened MaintenanceHistory
  import opened MaintenanceRuns

  /** A handler's claim: of an operation that the same worker has published. */
  ghost predicate ByItsHandler(steps: seq<Step>, k: nat)
    requires k < |steps| && IsClaim(steps[k])
  {
    exists b | 0 <= b < k :: steps[b].Begin? && steps[b].op == steps[k].op && steps[b].who == steps[k].who
  }

  predicate Acts(step: Step) { HasSubject(step) || step.Measure? || step.Discard? }

  /** A claim by a recovery at the construction of a journal: nobody else has used the journal yet. */
  ghost predicate ByANewJournal(steps: seq<Step>, k: nat)
    requires k < |steps| && IsClaim(steps[k])
  {
    forall j | 0 <= j < k && Acts(steps[j]) && steps[j].who.owner == steps[k].who.owner :: steps[j].who == steps[k].who
  }

  /** Requests bind the paths of one subject to it, and none of that subject commits while another one
      is between its measurement and its publication. */
  ghost predicate Serialised(states: seq<State>, steps: seq<Step>, subjectOf: Path -> string)
    requires |states| == |steps| + 1
  {
    && (forall k | 0 <= k < |steps| && steps[k].Begin? :: Binds(steps[k], subjectOf))
    && (forall k | 0 <= k < |steps| && steps[k].Begin? :: NoneCommits(states, steps, k))
  }

  predicate Binds(step: Step, subjectOf: Path -> string)
    requires step.Begin?
  {
    forall t | t in step.targets :: subjectOf(Original(t)) == step.subject
  }

  ghost predicate NoneCommits(states: seq<State>, steps: seq<Step>, k: nat)
    requires |states| == |steps| + 1 && k < |steps| && steps[k].Begin?
  {
    forall m: nat, i: nat, j | MeasuredAt(states, steps, m, k, steps[k].op, steps[k].who, i) && m <= j < k :: !CommitsFor(steps[j], steps[k].subject)
  }

  predicate CommitsFor(step: Step, subject: string) { step.Commit? && step.subject == subject }

  /** A run of such clients. */
  ghost predicate ClientRun(states: seq<State>, steps: seq<Step>, subjectOf: Path -> string) {
    && Run(states, steps) && Fresh(states[0]) && Undisturbed(states, steps) && Serialised(states, steps, subjectOf)
    && (forall k | 0 <= k < |states| :: OneHost(states[k]))
    && (forall k | 0 <= k < |steps| && IsClaim(steps[k]) :: ByItsHandler(steps, k) || ByANewJournal(steps, k))
  }

  // ---- rows say what their publication said --------------------------------------------------

  /** Every row is bound to the subject of its paths. */
  ghost predicate Bound(s: State, subjectOf: Path -> string) {
    forall o, p | o in s.rows && p in Originals(s.rows[o].targets) :: subjectOf(p) == s.rows[o].subject
  }

  lemma SubjectStaysBy(s: State, step: Step, s': State, o: Id)
    requires Effect(s, step, s') && o in s.rows
    ensures o in s'.rows && s'.rows[o].subject == s.rows[o].subject
    ensures HasSubject(step) && step.op == o ==> !step.Begin?
  {
    Kinds(step);
    hide HasSubject, IsClaim, IsFsStep, WritesRow, IsLast, Unclaimed, Originals, DraftOf, PhaseAfter, SameTargets, Uninvolved;
  }

  lemma SubjectStays(s: State, step: Step, o: Id)
    requires Enabled(s, step) && o in s.rows
    ensures o in After(s, step).rows && After(s, step).rows[o].subject == s.rows[o].subject
    ensures HasSubject(step) && step.op == o ==> !step.Begin?
  {
    hide Enabled, After, Effect;
    StepHasEffect(s, step);
    SubjectStaysBy(s, step, After(s, step), o);
  }

  lemma BoundStep(s: State, step: Step, subjectOf: Path -> string)
    requires Enabled(s, step) && Bound(s, subjectOf) && (step.Begin? ==> Binds(step, subjectOf))
    ensures Bound(After(s, step), subjectOf)
  {
    var s' := After(s, step);
    forall o, p | o in s'.rows && p in Originals(s'.rows[o].targets) ensures subjectOf(p) == s'.rows[o].subject {
      if step.Begin? && step.op == o {
        BeginAfter(s, step);
      } else {
        OldRow(s, step, o);
        hide Enabled, After, Originals;
        SubjectStays(s, step, o);
        SameOriginals(s, step, o);
      }
    }
  }

  lemma {:induction false} AlwaysBound(states: seq<State>, steps: seq<Step>, k: nat, subjectOf: Path -> string)
    requires Run(states, steps) && Fresh(states[0]) && Serialised(states, steps, subjectOf) && k < |states|
    ensures Bound(states[k], subjectOf)
  {
    hide Enabled, After, Binds, NoneCommits;
    if k == 0 {
      FreshIsBound(states[0], subjectOf);
    } else {
      AlwaysBound(states, steps, k - 1, subjectOf);
      BoundStep(states[k - 1], steps[k - 1], subjectOf);
    }
  }

  lemma FreshIsBound(s: State, subjectOf: Path -> string)
    requires Fresh(s)
    ensures Bound(s, subjectOf)
  {
  }

  lemma CommitNamesItsSubject(s: State, step: Step, p: Path, subjectOf: Path -> string)
    requires Enabled(s, step) && CommitsAt(s, step, p) && Bound(s, subjectOf)
    ensures CommitsFor(step, subjectOf(p))
  {
  }

  /** Serialising the requests of one subject makes every publication timely. */
  lemma SerialisedIsTimely(states: seq<State>, steps: seq<Step>, subjectOf: Path -> string)
    requires Run(states, steps) && Fresh(states[0]) && Serialised(states, steps, subjectOf)
    ensures Timely(states, steps)
  {
    hide Enabled, After, CommitsAt, Fresh, Originals;
    forall k, m: nat, i: nat | 0 <= k < |steps| && steps[k].Begin? && MeasuredAt(states, steps, m, k, steps[k].op, steps[k].who, i)
      ensures !Overtaken(states, steps, m, k, Original(steps[m].target))
    {
      PublishedDraft(states[k], steps[k]);
      var p := Original(steps[m].target);
      assert steps[k].targets[i] in steps[k].targets && Binds(steps[k], subjectOf);
      assert NoneCommits(states, steps, k);
      forall j | m <= j < k ensures !CommitsAt(states[j], steps[j], p) {
        if CommitsAt(states[j], steps[j], p) {
          AlwaysBound(states, steps, j, subjectOf);
          CommitNamesItsSubject(states[j], steps[j], p, subjectOf);
        }
      }
    }
  }

  // ---- who can be inside an operation --------------------------------------------------------

  lemma ThreadStep(s: State, step: Step, op: Id, w: Worker)
    requires Enabled(s, step) && Thread(op, w) in After(s, step).threads
    ensures Thread(op, w) in s.threads || (IsClaim(step) && step.op == op && step.who == w)
  {
    hide Enabled, After;
    StepHasEffect(s, step);
  }

  /** Whoever is inside an operation has claimed it. */
  lemma {:induction false} InsideByClaim(states: seq<State>, steps: seq<Step>, k: nat, op: Id, w: Worker) returns (j: nat)
    requires Run(states, steps) && states[0].threads == map[] && k < |states| && Thread(op, w) in states[k].threads
    ensures j < k && IsClaim(steps[j]) && steps[j].op == op && steps[j].who == w
  {
    hide Enabled, After;
    assert k > 0;
    ThreadStep(states[k - 1], steps[k - 1], op, w);
    if Thread(op, w) in states[k - 1].threads {
      j := InsideByClaim(states, steps, k - 1, op, w);
    } else {
      j := k - 1;
    }
  }

  lemma {:induction false} RowsStay(states: seq<State>, steps: seq<Step>, from: nat, k: nat, op: Id)
    requires Run(states, steps) && from <= k < |states| && op in states[from].rows
    ensures op in states[k].rows
  {
    hide Enabled, After;
    if from < k {
      RowsStay(states, steps, from, k - 1, op);
      SubjectStays(states[k - 1], steps[k - 1], op);
    }
  }

  lemma BeginMakesARow(s: State, step: Step)
    requires Enabled(s, step) && step.Begin?
    ensures step.op !in s.rows && step.op in After(s, step).rows
  {
    hide Enabled, After;
    StepHasEffect(s, step);
  }

  lemma ClaimNeedsARow(s: State, step: Step)
    requires Enabled(s, step) && IsClaim(step)
    ensures step.op in s.rows && ClaimEnabled(s, step.op, step.who)
  {
  }

  /** An operation is published once, and before any claim of it. */
  lemma PublishedBefore(states: seq<State>, steps: seq<Step>, b: nat, j: nat)
    requires Run(states, steps) && b < |steps| && j < |steps| && steps[b].Begin?
    requires (IsClaim(steps[j]) || steps[j].Begin?) && steps[j].op == steps[b].op
    ensures IsClaim(steps[j]) ==> b < j
    ensures steps[j].Begin? ==> b == j
  {
    hide Enabled, After;
    BeginMakesARow(states[b], steps[b]);
    if steps[j].Begin? {
      BeginMakesARow(states[j], steps[j]);
      if b < j {
        RowsStay(states, steps, b + 1, j, steps[b].op);
      } else if j < b {
        RowsStay(states, steps, j + 1, b, steps[b].op);
      }
    } else {
      ClaimNeedsARow(states[j], steps[j]);
      if j <= b {
        RowsStay(states, steps, j, b, steps[b].op);
      }
    }
  }

  /** On one host a claim that is enabled beside a live thread comes from the thread's own journal. */
  lemma SameJournal(s: State, step: Step, v: Worker)
    requires Inv(s) && OneHost(s) && Enabled(s, step) && IsClaim(step) && Thread(step.op, v) in s.threads
    ensures v.owner == step.who.owner
  {
    ClaimNeedsARow(s, step);
    OnlyThread(s, step.op, v, v);
    hide Inv, Enabled;
  }

  lemma TwoWorkersNeverMeet(states: seq<State>, steps: seq<Step>, k: nat, j: nat, v: Worker)
    requires Run(states, steps) && j < k < |steps| && IsClaim(steps[k]) && IsClaim(steps[j])
    requires steps[j].op == steps[k].op && steps[j].who == v && v.owner == steps[k].who.owner
    requires ByItsHandler(steps, k) || ByANewJournal(steps, k)
    requires ByItsHandler(steps, j) || ByANewJournal(steps, j)
    ensures v == steps[k].who
  {
    hide Enabled, After, Run;
    if !ByANewJournal(steps, k) {
      var b :| 0 <= b < k && steps[b].Begin? && steps[b].op == steps[k].op && steps[b].who == steps[k].who;
      assert Acts(steps[b]);
      PublishedBefore(states, steps, b, j);
      if ByItsHandler(steps, j) {
        var c :| 0 <= c < j && steps[c].Begin? && steps[c].op == steps[j].op && steps[c].who == v;
        PublishedBefore(states, steps, b, c);
      }
    } else {
      assert Acts(steps[j]);
    }
  }

  lemma ClientClaimIsAlone(states: seq<State>, steps: seq<Step>, k: nat, subjectOf: Path -> string)
    requires ClientRun(states, steps, subjectOf) && k < |steps| && Inv(states[k])
    ensures Alone(states[k], steps[k])
  {
    hide Inv, Enabled, After, Undisturbed, Serialised, OneHost, ByItsHandler, ByANewJournal;
    FreshHasNoThreads(states[0]);
    if IsClaim(steps[k]) {
      forall v | Thread(steps[k].op, v) in states[k].threads ensures v == steps[k].who {
        SameJournal(states[k], steps[k], v);
        var j := InsideByClaim(states, steps, k, steps[k].op, v);
        TwoWorkersNeverMeet(states, steps, k, j, v);
      }
    }
  }

  lemma FreshHasNoThreads(s: State)
    requires Fresh(s)
    ensures s.threads == map[]
  {
  }

  lemma {:induction false} ClientRunKeepsInv(states: seq<State>, steps: seq<Step>, k: nat, subjectOf: Path -> string)
    requires ClientRun(states, steps, subjectOf) && Timely(states, steps) && k < |states|
    ensures forall j | 0 <= j <= k :: Inv(states[j])
    ensures forall j | 0 <= j < k :: Careful(states[j], steps[j])
  {
    hide Inv, Enabled, After, Alone, Current, UndisturbedAt, TimelyAt, Serialised, OneHost, ByItsHandler, ByANewJournal;
    FreshHasNoDrafts(states[0]);
    if k == 0 {
      FreshIsSafe(states[0]);
    } else {
      ClientRunKeepsInv(states, steps, k - 1, subjectOf);
      ClientClaimIsAlone(states, steps, k - 1, subjectOf);
      forall j | 0 <= j < k - 1 ensures Current(states[j], steps[j]) {
        assert Careful(states[j], steps[j]);
      }
      if steps[k - 1].Begin? {
        PublicationIsCurrentIff(states, steps, k - 1);
      } else {
        OnlyPublicationsMatter(states[k - 1], steps[k - 1]);
      }
      assert Careful(states[k - 1], steps[k - 1]);
      StepKeepsInv(states[k - 1], steps[k - 1]);
    }
  }

  /** Every run of such clients satisfies what `AllOrNothing` asks for, at every step. */
  lemma ClientRunsAreProper(states: seq<State>, steps: seq<Step>, subjectOf: Path -> string)
    requires ClientRun(states, steps, subjectOf)
    ensures Proper(states, steps)
  {
    hide Inv, Enabled, After, Alone, Undisturbed, Serialised, OneHost, ByItsHandler, ByANewJournal, Fresh, Current;
    SerialisedIsTimely(states, steps, subjectOf);
    ClientRunKeepsInv(states, steps, |steps|, subjectOf);
    forall k | 0 <= k < |steps| ensures Alone(states[k], steps[k]) {
      assert Careful(states[k], steps[k]);
    }
  }
}
