/** What every run of an update keeps, and how its two journals end up agreeing. */
module UpdateSafety {

  import opened Wrappers
  import opened UpdateModel

  /** Steps of the driver proper. */
  predicate IsDriver(step: Step) {
    step.PublishPlan? || step.ActivateApt? || step.SaveAptPrepared? || step.SaveStaging? || step.BuildRelease? || step.DropRelease?
    || step.SaveDiscarded? || step.SaveActivating? || step.SwitchToCandidate? || step.SaveHealthy? || step.SaveCommitted?
  }

  predicate IsApt(step: Step) { step.WriteApt? || step.InstallNew? || step.InstallOld? || step.ClearApt? || step.PruneApt? }

  predicate IsSave(step: Step) {
    step.SaveAptPrepared? || step.SaveStaging? || step.SaveDiscarded? || step.SaveActivating? || step.SaveHealthy? || step.SaveCommitted?
  }

  lemma SavesKeepInv(s: State, step: Step)
    requires Inv(s) && Enabled(s, step) && IsSave(step)
    ensures Inv(After(s, step))
  {
  }

  lemma EffectsKeepInv(s: State, step: Step)
    requires Inv(s) && Enabled(s, step) && IsDriver(step) && !IsSave(step)
    ensures Inv(After(s, step))
  {
  }

  lemma DriverKeepsInv(s: State, step: Step)
    requires Inv(s) && Enabled(s, step) && IsDriver(step)
    ensures Inv(After(s, step))
  {
    hide Inv, Enabled, After;
    if IsSave(step) {
      SavesKeepInv(s, step);
    } else {
      EffectsKeepInv(s, step);
    }
  }

  /** The transaction of the running update is the newest, so retention never takes it. */
  lemma OwnIsKept(s: State, ids: set<Id>)
    requires Inv(s) && Obsolete(s, ids) && Mine(s)
    ensures s.journal.value.id !in ids
  {
    assert PackagesOK(s);
  }

  lemma WriteAptKeepsInv(s: State, to: AptState)
    requires Inv(s) && MayWriteApt(s, to)
    ensures Inv(After(s, WriteApt(to)))
  {
    hide Inv, After, Enabled;
    if to == Applying || to == Applied || to == Validating {
      AptForwardKeepsInv(s, to);
    } else if to == AptCommitted {
      AptCommitKeepsInv(s);
    } else if to == Aborted || to == RolledBack {
      AptUndoneKeepsInv(s, to);
    } else {
      AptBackKeepsInv(s, to);
    }
  }

  lemma AptForwardKeepsInv(s: State, to: AptState)
    requires Inv(s) && MayWriteApt(s, to) && (to == Applying || to == Applied || to == Validating)
    ensures Inv(After(s, WriteApt(to)))
  {
  }

  lemma AptCommitKeepsInv(s: State)
    requires Inv(s) && MayWriteApt(s, AptCommitted)
    ensures Inv(After(s, WriteApt(AptCommitted)))
  {
  }

  lemma AptBackKeepsInv(s: State, to: AptState)
    requires Inv(s) && MayWriteApt(s, to) && (to == RollingBack || to == RecoveryRequired)
    ensures Inv(After(s, WriteApt(to)))
  {
    assert Own(s).state != AptCommitted;
  }

  lemma AptUndoneKeepsInv(s: State, to: AptState)
    requires Inv(s) && MayWriteApt(s, to) && (to == Aborted || to == RolledBack)
    ensures Inv(After(s, WriteApt(to)))
  {
  }

  lemma InstallKeepsInv(s: State, p: Package)
    requires Inv(s) && Mine(s) && p in Own(s).plan
    ensures Enabled(s, InstallNew(p)) ==> Inv(After(s, InstallNew(p)))
    ensures Enabled(s, InstallOld(p)) ==> Inv(After(s, InstallOld(p)))
  {
    hide Inv, Enabled, After;
    if Enabled(s, InstallNew(p)) {
      InstallNewKeepsInv(s, p);
    }
    if Enabled(s, InstallOld(p)) {
      InstallOldKeepsInv(s, p);
    }
  }

  lemma InstallNewKeepsInv(s: State, p: Package)
    requires Inv(s) && Enabled(s, InstallNew(p))
    ensures Inv(After(s, InstallNew(p)))
  {
  }

  lemma InstallOldKeepsInv(s: State, p: Package)
    requires Inv(s) && Enabled(s, InstallOld(p))
    ensures Inv(After(s, InstallOld(p)))
  {
  }

  lemma ClearAptKeepsInv(s: State)
    requires Inv(s) && Enabled(s, ClearApt)
    ensures Inv(After(s, ClearApt))
  {
  }

  lemma PruneKeepsInv(s: State, ids: set<Id>)
    requires Inv(s) && Enabled(s, PruneApt(ids))
    ensures Inv(After(s, PruneApt(ids)))
  {
    if Mine(s) {
      OwnIsKept(s, ids);
    }
    hide Obsolete;
  }

  lemma AptKeepsInv(s: State, step: Step)
    requires Inv(s) && Enabled(s, step) && IsApt(step)
    ensures Inv(After(s, step))
  {
    hide Inv, After, Obsolete;
    match step
    case WriteApt(to) => WriteAptKeepsInv(s, to);
    case PruneApt(ids) => PruneKeepsInv(s, ids);
    case InstallNew(p) => InstallKeepsInv(s, p);
    case InstallOld(p) => InstallKeepsInv(s, p);
    case ClearApt => ClearAptKeepsInv(s);
  }

  lemma RecoveryKeepsInv(s: State, step: Step)
    requires Inv(s) && Enabled(s, step) && !IsDriver(step) && !IsApt(step)
    ensures Inv(After(s, step))
  {
  }

  lemma StepKeepsInv(s: State, step: Step)
    requires Inv(s) && Enabled(s, step)
    ensures Inv(After(s, step))
  {
    hide Inv, Enabled, After;
    if IsDriver(step) {
      DriverKeepsInv(s, step);
    } else if IsApt(step) {
      AptKeepsInv(s, step);
    } else {
      RecoveryKeepsInv(s, step);
    }
  }

  ghost predicate Run(states: seq<State>, steps: seq<Step>) {
    && |states| == |steps| + 1
    && forall k | 0 <= k < |steps| :: Enabled(states[k], steps[k]) && states[k + 1] == After(states[k], steps[k])
  }

  lemma {:induction false} RunKeepsInv(states: seq<State>, steps: seq<Step>, k: nat)
    requires Run(states, steps) && Inv(states[0]) && k < |states|
    ensures Inv(states[k])
  {
    hide Inv, After, Enabled;
    if k > 0 {
      RunKeepsInv(states, steps, k - 1);
      StepKeepsInv(states[k - 1], steps[k - 1]);
    }
  }

  // ---- the decision -------------------------------------------------------------------------

  /** Once the driver is gone, no step changes what recovery decides. */
  lemma DecisionIsStable(s: State, step: Step)
    requires Inv(s) && Enabled(s, step) && s.journal.Some? && !s.driver && !step.ClearJournal?
    ensures After(s, step).journal == s.journal && !After(s, step).driver
    ensures Keep(After(s, step)) <==> Keep(s)
  {
    if step.PruneApt? && Mine(s) {
      OwnIsKept(s, step.ids);
    }
  }

  /** Re-running recovery after any number of crashes inside it decides the same. */
  lemma {:induction false} EveryRecoveryDecidesTheSame(states: seq<State>, steps: seq<Step>, i: nat, j: nat)
    requires Run(states, steps) && Inv(states[0]) && i <= j < |states|
    requires states[i].journal.Some? && !states[i].driver
    requires forall k | i <= k < j :: !steps[k].ClearJournal?
    ensures states[j].journal == states[i].journal && !states[j].driver && (Keep(states[j]) <==> Keep(states[i]))
  {
    hide Inv, Enabled, After, Keep;
    if i < j {
      EveryRecoveryDecidesTheSame(states, steps, i, j - 1);
      RunKeepsInv(states, steps, j - 1);
      DecisionIsStable(states[j - 1], steps[j - 1]);
    }
  }

  // ---- agreement ----------------------------------------------------------------------------

  /** The package set after the whole plan. */
  function Upgraded(before: map<Package, Version>, plan: Plan): map<Package, Version> {
    map p | p in before :: if p in plan then plan[p].new_ else before[p]
  }

  lemma SidesOfAPlan(packages: map<Package, Version>, before: map<Package, Version>, plan: Plan)
    requires Between(packages, before, plan)
    ensures OnOld(packages, plan) <==> packages == before
    ensures OnNew(packages, plan) <==> packages == Upgraded(before, plan)
  {
    if OnOld(packages, plan) {
      forall p | p in packages ensures packages[p] == before[p] {
      }
      assert packages == before;
    }
    if OnNew(packages, plan) {
      forall p | p in packages ensures packages[p] == Upgraded(before, plan)[p] {
      }
      assert packages == Upgraded(before, plan);
    }
  }

  /** Candidate tools with new packages, or previous tools with old packages; and nothing left over. */
  ghost predicate Agreed(s: State, j: Journal) {
    || (&& s.current == Target(j)
        && (if j.aptChanged == Some(true) then exists plan :: plan != map[] && s.packages == Upgraded(s.before, plan)
            else s.packages == s.before))
    || (&& s.current == j.previous && s.packages == s.before
        && (j.candidate.Some? ==> j.candidate.value !in s.releases))
  }

  /** Whenever the runtime journal is cleared the two sides agree, whichever way it was decided:
      kept means the target release and every planned upgrade, undone means everything as before. */
  lemma JournalsAgree(states: seq<State>, steps: seq<Step>, k: nat)
    requires Run(states, steps) && Inv(states[0]) && k < |steps| && steps[k].ClearJournal?
    ensures var s := states[k];
            && s.journal.Some? && s.aptActive.None? && states[k + 1].journal.None? && states[k + 1].aptActive.None?
            && Agreed(s, s.journal.value)
            && (if Keep(s) then s.current == Target(s.journal.value) else s.current == s.journal.value.previous && s.packages == s.before)
            && (Keep(s) && Mine(s) ==> s.packages == Upgraded(s.before, Own(s).plan))
            && states[k + 1].current == s.current && states[k + 1].packages == s.packages
  {
    RunKeepsInv(states, steps, k);
    var s := states[k];
    assert Enabled(s, steps[k]) && states[k + 1] == After(s, steps[k]);
    hide Run;
    if Mine(s) {
      SidesOfAPlan(s.packages, s.before, Own(s).plan);
    }
  }

  /** The release `current` points at exists at every moment. */
  lemma CurrentIsNeverDeleted(states: seq<State>, steps: seq<Step>, k: nat)
    requires Run(states, steps) && Inv(states[0]) && k < |states|
    ensures states[k].current in states[k].releases
  {
    RunKeepsInv(states, steps, k);
  }

  /** A committed runtime journal implies committed packages: the order of the driver is enough to
      tie the two commits together. */
  lemma CommitsAreOrdered(states: seq<State>, steps: seq<Step>, k: nat)
    requires Run(states, steps) && Inv(states[0]) && k < |states| && In(states[k], Committed)
    ensures Keep(states[k])
    ensures states[k].journal.value.aptChanged == Some(true) ==> Mine(states[k]) && Own(states[k]).state == AptCommitted
  {
    RunKeepsInv(states, steps, k);
  }
}
