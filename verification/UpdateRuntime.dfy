/** The two helpers of a runtime update and the driver that calls them, in the form of their
    sources. Every durable effect is recorded as a step of `UpdateModel`. */
module UpdateRuntimes {

  import opened Wrappers
  import opened UpdateModel
  import opened UpdateSafety

  /** `Refused` is an answer about the journals; `Unavailable` is the host failing. */
  datatype Error = Refused | Unavailable

  class Host {
    var journal: Option<Journal>
    var aptActive: Option<Id>
    var txs: map<Id, AptTx>
    var clock: nat
    var packages: map<Package, Version>
    ghost var before: map<Package, Version>
    var current: Id
    var releases: set<Id>
    ghost var driver: bool
    ghost var states: seq<State>
    ghost var steps: seq<Step>

    ghost function Snap(): State
      reads this
    {
      State(journal, aptActive, txs, clock, packages, before, current, releases, driver)
    }

    /** The host is in a state that some run reached. */
    ghost predicate Valid()
      reads this
    {
      Run(states, steps) && Last(states) == Snap() && Inv(Snap())
    }

    constructor (packages: map<Package, Version>, current: Id, releases: set<Id>)
      requires current in releases
      ensures Valid() && journal.None? && aptActive.None?
    {
      journal, aptActive, txs, clock := None, None, map[], 0;
      this.packages, this.current, this.releases := packages, current, releases;
      before, driver := packages, false;
      states := [State(None, None, map[], 0, packages, packages, current, releases, false)];
      steps := [];
    }

    ghost method Record(step: Step)
      requires Run(states, steps) && Inv(Last(states)) && Enabled(Last(states), step) && Snap() == After(Last(states), step)
      modifies this`states, this`steps
      ensures Valid() && states == old(states) + [Snap()] && steps == old(steps) + [step]
    {
      hide Inv, After, Enabled;
      StepKeepsInv(Last(states), step);
      states := states + [Snap()];
      steps := steps + [step];
    }
  }

  // ---- what the invariant says at the points of decision ------------------------------------

  lemma BeforeIsNow(s: State)
    requires Inv(s) && s.journal.Some? && !Mine(s)
    ensures s.packages == s.before
  {
  }

  lemma AppliedIsNew(s: State)
    requires Inv(s)
    ensures AptIs(s, {Applied, Validating}) ==> OnNew(s.packages, Own(s).plan)
  {
  }

  lemma ActiveIsOwn(s: State)
    requires Inv(s)
    ensures s.aptActive.Some? ==> Mine(s) && s.aptActive == Some(s.journal.value.id) && (Own(s).state != AptCommitted ==> !Keep(s))
  {
  }

  lemma NoJournalNoApt(s: State)
    requires Inv(s)
    ensures s.journal.None? ==> s.aptActive.None?
  {
  }

  /** With a package transaction, keeping is the same as its commit. */
  lemma KeptIffCommitted(s: State)
    requires Inv(s) && Mine(s)
    ensures Keep(s) <==> Own(s).state == AptCommitted
  {
  }

  /** The decision as recovery computes it. */
  lemma KeepsIff(s: State, j: Journal)
    requires s.journal == Some(j)
    ensures var changed := j.aptChanged == Some(true) || s.aptActive == Some(j.id);
            Keep(s) <==> (j.state == Healthy || j.state == Committed)
                         && (!changed || (j.id in s.txs && s.txs[j.id].state == AptCommitted))
  {
  }

  lemma KeepIgnoresTools(s: State, s': State)
    requires s'.journal == s.journal && s'.aptActive == s.aptActive && s'.txs == s.txs
    ensures Keep(s') <==> Keep(s)
  {
  }

  /** The package transaction of the update may have moved on, but not across its commit. */
  ghost predicate SameDecision(s: State, s': State) {
    if Mine(s) then
      Mine(s') && Own(s').plan == Own(s).plan && (Own(s').state == AptCommitted <==> Own(s).state == AptCommitted)
    else s'.txs == s.txs && s'.aptActive == s.aptActive
  }

  lemma TargetsExist(s: State)
    requires Inv(s) && s.journal.Some?
    ensures s.journal.value.previous in s.releases
    ensures Keep(s) ==> Target(s.journal.value) in s.releases
    ensures s.journal.value.candidate.Some? ==> s.journal.value.candidate.value != s.journal.value.previous
  {
  }

  class AptTransaction {
    const host: Host

    constructor (host: Host)
      ensures this.host == host
    {
      this.host := host;
    }

    /** The state file of a transaction. */
    method WriteState(id: Id, to: AptState) returns (r: Result<(), Error>)
      requires host.Valid() && host.journal.Some? && id == host.journal.value.id && MayWriteApt(host.Snap(), to)
      modifies host
      ensures host.Valid() && old(host.states) <= host.states
      ensures r.Ok? ==> host.Snap() == Stamped(old(host.Snap()), Own(old(host.Snap())).(state := to))
      ensures r.Err? ==> host.Snap() == old(host.Snap()) && r == Err(Unavailable)
    {
      hide Inv, Keep, Run;
      if * {
        return Err(Unavailable);
      }
      host.txs := host.txs[id := host.txs[id].(state := to, stamp := host.clock)];
      host.clock := host.clock + 1;
      host.Record(WriteApt(to));
      return Ok(());
    }

    method ClearActive() returns (r: Result<(), Error>)
      requires host.Valid() && AptIs(host.Snap(), {Aborted, AptCommitted, RolledBack})
      modifies host
      ensures host.Valid() && old(host.states) <= host.states
      ensures r.Ok? ==> host.Snap() == old(host.Snap()).(aptActive := None)
      ensures r.Err? ==> host.Snap() == old(host.Snap()) && r == Err(Unavailable)
    {
      hide Inv, Run;
      if * {
        return Err(Unavailable);
      }
      host.aptActive := None;
      host.Record(ClearApt);
      return Ok(());
    }

    /** Publish a verified plan: the transaction directory, then the marker. */
    method Prepare(id: Id, plan: Plan) returns (r: Result<bool, Error>)
      requires host.Valid() && Driving(host.Snap(), Begun) && id == host.journal.value.id && host.aptActive.None? && id !in host.txs
      modifies host
      ensures host.Valid() && old(host.states) <= host.states
      ensures Driving(host.Snap(), Begun) && host.journal == old(host.journal) && host.current == old(host.current) && host.releases == old(host.releases)
      ensures host.before == old(host.before)
      ensures r.Ok? ==> (if r.value then AptIs(host.Snap(), {Prepared}) else !Mine(host.Snap()) && host.aptActive.None?)
    {
      hide Inv, Run;
      if plan == map[] {
        return Ok(false);
      }
      if !(plan.Keys <= host.packages.Keys) || exists p | p in plan :: host.packages[p] != plan[p].old_ {
        return Err(Refused);
      }
      if * {
        return Err(Unavailable);
      }
      BeforeIsNow(host.Snap());
      host.txs := host.txs[id := AptTx(Prepared, plan, host.clock)];
      host.clock := host.clock + 1;
      host.Record(PublishPlan(plan));
      if * {
        return Err(Unavailable);
      }
      host.aptActive := Some(id);
      host.Record(ActivateApt);
      return Ok(true);
    }

    /** Install one side of the plan, package by package; a failure may leave a mixture. */
    method Install(id: Id, newSide: bool) returns (r: Result<(), Error>)
      requires host.Valid() && host.journal.Some? && id == host.journal.value.id
      requires if newSide then AptIs(host.Snap(), {Applying}) && host.driver else AptIs(host.Snap(), {RollingBack}) && !host.driver
      modifies host
      ensures host.Valid() && old(host.states) <= host.states && host.Snap() == old(host.Snap()).(packages := host.packages)
      ensures r.Ok? ==> if newSide then OnNew(host.packages, host.txs[id].plan) else OnOld(host.packages, host.txs[id].plan)
      ensures r.Err? ==> r == Err(Unavailable)
    {
      hide Inv, Run;
      var plan := host.txs[id].plan;
      var left := plan.Keys;
      while left != {}
        invariant host.Valid() && old(host.states) <= host.states && host.Snap() == old(host.Snap()).(packages := host.packages)
        invariant left <= plan.Keys
        invariant forall p | p in plan && p !in left :: p in host.packages && host.packages[p] == if newSide then plan[p].new_ else plan[p].old_
        decreases |left|
      {
        if * {
          return Err(Unavailable);
        }
        var p :| p in left;
        left := left - {p};
        host.packages := host.packages[p := if newSide then plan[p].new_ else plan[p].old_];
        if newSide {
          host.Record(InstallNew(p));
        } else {
          host.Record(InstallOld(p));
        }
      }
      return Ok(());
    }

    method Apply() returns (r: Result<bool, Error>)
      requires host.Valid() && Driving(host.Snap(), AptPrepared)
      modifies host
      ensures host.Valid() && old(host.states) <= host.states
      ensures host.journal == old(host.journal) && host.driver == old(host.driver) && host.aptActive == old(host.aptActive)
              && host.current == old(host.current) && host.releases == old(host.releases) && host.before == old(host.before)
      ensures r.Ok? ==> r.value == host.aptActive.Some? && (host.aptActive.Some? ==> AptIs(host.Snap(), {Applied}))
      ensures r == Err(Refused) <==> old(host.aptActive).Some? && !AptIs(old(host.Snap()), {Prepared})
    {
      ActiveIsOwn(host.Snap());
      hide Inv, Keep, Run;
      if host.aptActive.None? {
        return Ok(false);
      }
      var id := host.aptActive.value;
      if host.txs[id].state != Prepared {
        return Err(Refused);
      }
      var written := WriteState(id, Applying);
      if written.Err? {
        return Err(Unavailable);
      }
      var installed := Install(id, true);
      if installed.Err? {
        return Err(Unavailable);
      }
      written := WriteState(id, Applied);
      if written.Err? {
        return Err(Unavailable);
      }
      return Ok(true);
    }

    method BeginValidation() returns (r: Result<(), Error>)
      requires host.Valid() && Driving(host.Snap(), AptPrepared)
      modifies host
      ensures host.Valid() && old(host.states) <= host.states
      ensures host.journal == old(host.journal) && host.driver == old(host.driver)
              && host.current == old(host.current) && host.releases == old(host.releases) && host.before == old(host.before)
      ensures r.Ok? ==> AptReady(host.Snap())
      ensures r == Err(Refused) <==> old(host.aptActive).Some? && !AptIs(old(host.Snap()), {Applied})
    {
      ActiveIsOwn(host.Snap());
      hide Inv, Keep, Run;
      if host.aptActive.None? {
        return Ok(());
      }
      var id := host.aptActive.value;
      if host.txs[id].state != Applied {
        return Err(Refused);
      }
      r := WriteState(id, Validating);
    }

    method Commit() returns (r: Result<(), Error>)
      requires host.Valid() && Driving(host.Snap(), Healthy)
      modifies host
      ensures host.Valid() && old(host.states) <= host.states
      ensures host.journal == old(host.journal) && host.driver == old(host.driver)
              && host.current == old(host.current) && host.releases == old(host.releases) && host.before == old(host.before)
      ensures r.Ok? ==> host.aptActive.None? && (old(host.aptActive).Some? ==> Mine(host.Snap()) && Own(host.Snap()).state == AptCommitted)
      ensures r.Ok? && old(host.aptActive).None? ==> host.Snap() == old(host.Snap())
      ensures r == Err(Refused) <==> old(host.aptActive).Some? && !AptIs(old(host.Snap()), {Applied, Validating})
    {
      ActiveIsOwn(host.Snap());
      AppliedIsNew(host.Snap());
      hide Inv, Keep, Run;
      if host.aptActive.None? {
        return Ok(());
      }
      var id := host.aptActive.value;
      var state := host.txs[id].state;
      if state != Applied && state != Validating {
        return Err(Refused);
      }
      r := WriteState(id, AptCommitted);
      if r.Err? {
        return;
      }
      r := ClearActive();
      if r.Err? {
        return;
      }
      Prune(3);
    }

    /** Back to the exact old versions; a failure leaves the need for recovery on record. */
    method Rollback(id: Id) returns (r: Result<(), Error>)
      requires host.Valid() && host.aptActive == Some(id) && Mine(host.Snap()) && AptIs(host.Snap(), {Own(host.Snap()).state})
      requires Recoverable(Own(host.Snap()).state) && !host.driver && !Keep(host.Snap()) && host.current == host.journal.value.previous
      modifies host
      ensures host.Valid() && old(host.states) <= host.states
      ensures host.journal == old(host.journal) && !host.driver && host.current == old(host.current) && host.releases == old(host.releases)
      ensures host.before == old(host.before) && SameDecision(old(host.Snap()), host.Snap())
      ensures r.Ok? ==> host.aptActive.None?
      ensures r.Err? ==> r == Err(Unavailable)
    {
      hide Inv, Keep, Between, Run;
      r := WriteState(id, RollingBack);
      if r.Ok? {
        r := Install(id, false);
      }
      if r.Err? {
        var recorded := WriteState(id, RecoveryRequired);
        return;
      }
      r := WriteState(id, RolledBack);
      if r.Err? {
        return;
      }
      r := ClearActive();
      if r.Ok? {
        Prune(3);
      }
    }

    /** Finish the active transaction, whatever state a crash left it in. */
    method Recover() returns (r: Result<(), Error>)
      requires host.Valid() && host.journal.Some? && !host.driver
      requires !Keep(host.Snap()) ==> host.current == host.journal.value.previous
      modifies host
      ensures host.Valid() && old(host.states) <= host.states
      ensures host.journal == old(host.journal) && !host.driver && host.current == old(host.current) && host.releases == old(host.releases)
      ensures host.before == old(host.before) && SameDecision(old(host.Snap()), host.Snap())
      ensures r.Ok? ==> host.aptActive.None?
      ensures r.Err? ==> r == Err(Unavailable)
    {
      ActiveIsOwn(host.Snap());
      hide Inv, Keep, Run;
      if host.aptActive.None? {
        return Ok(());
      }
      var id := host.aptActive.value;
      var state := host.txs[id].state;
      if state == Prepared {
        r := WriteState(id, Aborted);
        if r.Err? {
          return;
        }
        r := ClearActive();
        if r.Ok? {
          Prune(3);
        }
      } else if Recoverable(state) {
        r := Rollback(id);
      } else {
        r := ClearActive();
        if r.Ok? {
          Prune(3);
        }
      }
    }

    /** Retention: of the finished transactions, delete all but the `keep` newest. */
    method Prune(keep: nat)
      requires host.Valid() && host.aptActive.None? && keep >= 1
      modifies host
      ensures host.Valid() && old(host.states) <= host.states
      ensures host.Snap() == old(host.Snap()).(txs := host.txs)
      ensures forall id | id in host.txs :: id in old(host.txs) && host.txs[id] == old(host.txs)[id]
      ensures Mine(old(host.Snap())) ==> Mine(host.Snap()) && Own(host.Snap()) == Own(old(host.Snap()))
    {
      hide Inv, Run;
      var obsolete := Beyond(keep);
      if Mine(host.Snap()) {
        OwnIsKept(host.Snap(), obsolete);
      }
      hide Obsolete;
      host.txs := host.txs - obsolete;
      host.Record(PruneApt(obsolete));
    }

    /** All but the `keep` newest finished transactions. */
    method Beyond(keep: nat) returns (obsolete: set<Id>)
      requires keep >= 1
      ensures Obsolete(host.Snap(), obsolete)
    {
      var finished := Finished();
      obsolete := {};
      if |finished| > keep {
        obsolete := set k | keep <= k < |finished| :: finished[k];
        assert finished[0] !in obsolete;
        forall id | id in obsolete
          ensures finished[0] in host.txs && Final(host.txs[finished[0]].state) && host.txs[finished[0]].stamp >= host.txs[id].stamp
        {
          assert finished[0] in finished;
        }
      }
    }

    /** The finished transactions, newest first. */
    method Finished() returns (finished: seq<Id>)
      ensures forall id :: id in finished <==> id in host.txs && Final(host.txs[id].state)
      ensures forall i, j | 0 <= i < j < |finished| :: host.txs[finished[i]].stamp >= host.txs[finished[j]].stamp
      ensures forall i, j | 0 <= i < j < |finished| :: finished[i] != finished[j]
    {
      finished := [];
      var left := host.txs.Keys;
      while left != {}
        invariant left <= host.txs.Keys
        invariant forall id :: id in finished <==> id in host.txs && id !in left && Final(host.txs[id].state)
        invariant forall i, j | 0 <= i < j < |finished| :: host.txs[finished[i]].stamp >= host.txs[finished[j]].stamp
        invariant forall i, j | 0 <= i < j < |finished| :: finished[i] != finished[j]
        decreases |left|
      {
        var id :| id in left;
        left := left - {id};
        if Final(host.txs[id].state) {
          finished := InsertByStamp(id, finished);
        }
      }
    }

    method InsertByStamp(id: Id, finished: seq<Id>) returns (longer: seq<Id>)
      requires id in host.txs && id !in finished && forall o | o in finished :: o in host.txs
      requires forall i, j | 0 <= i < j < |finished| :: host.txs[finished[i]].stamp >= host.txs[finished[j]].stamp
      requires forall i, j | 0 <= i < j < |finished| :: finished[i] != finished[j]
      ensures forall o :: o in longer <==> o in finished || o == id
      ensures forall i, j | 0 <= i < j < |longer| :: host.txs[longer[i]].stamp >= host.txs[longer[j]].stamp
      ensures forall i, j | 0 <= i < j < |longer| :: longer[i] != longer[j]
    {
      var k := 0;
      while k < |finished| && host.txs[finished[k]].stamp >= host.txs[id].stamp
        invariant 0 <= k <= |finished|
        invariant forall i | 0 <= i < k :: host.txs[finished[i]].stamp >= host.txs[id].stamp
      {
        k := k + 1;
      }
      longer := finished[..k] + [id] + finished[k..];
    }
  }

  /** The plan of the running update; empty when its packages do not change. */
  function PlanOf(s: State): Plan { if Mine(s) then Own(s).plan else map[] }

  lemma KeepIsStable(start: State, s: State, s': State)
    requires Inv(s) && Inv(s') && s.journal.Some? && s'.journal == s.journal == start.journal
    requires start.aptActive == s.aptActive && start.txs == s.txs && SameDecision(s, s')
    ensures (Keep(s') <==> Keep(start)) && PlanOf(s') == PlanOf(start)
  {
    KeepIgnoresTools(start, s);
    if Mine(s) {
      KeptIffCommitted(s);
      KeptIffCommitted(s');
    } else {
      KeepIgnoresTools(s, s');
    }
  }

  lemma SameDecisionAsItself(s: State, s': State)
    requires s'.journal == s.journal && s'.aptActive == s.aptActive && s'.txs == s.txs
    ensures SameDecision(s, s')
  {
  }

  lemma SettledEarly(s: State)
    requires Inv(s) && !s.driver
    ensures (In(s, Begun) || In(s, Committed)) && s.aptActive.None? ==> Enabled(s, ClearJournal)
  {
  }

  /** At the point where the journal may be cleared, the packages are on the side of the tools. */
  lemma EndsAgree(s: State)
    requires Inv(s) && Enabled(s, ClearJournal)
    ensures if Keep(s) then s.packages == Upgraded(s.before, PlanOf(s)) else s.packages == s.before
  {
    if Mine(s) {
      SidesOfAPlan(s.packages, s.before, Own(s).plan);
    } else {
      assert Upgraded(s.before, map[]) == s.before;
    }
  }

  class RuntimeJournal {
    const host: Host
    const apt: AptTransaction

    constructor (host: Host, apt: AptTransaction)
      requires apt.host == host
      ensures this.host == host && this.apt == apt
    {
      this.host, this.apt := host, apt;
    }

    ghost predicate Ready()
      reads this, host
    {
      apt.host == host && host.Valid()
    }

    /** The step whose effect is only a new journal file. */
    method Save(journal: Journal, ghost step: Step) returns (r: Result<(), Error>)
      requires Ready() && Enabled(host.Snap(), step) && After(host.Snap(), step) == UpdateModel.Save(host.Snap(), journal)
      modifies host
      ensures Ready() && old(host.states) <= host.states
      ensures r.Ok? ==> host.Snap() == UpdateModel.Save(old(host.Snap()), journal)
      ensures r.Err? ==> host.Snap() == old(host.Snap()) && r == Err(Unavailable)
    {
      hide Inv, Enabled, After, Run;
      if * {
        return Err(Unavailable);
      }
      host.journal := Some(journal);
      host.Record(step);
      return Ok(());
    }

    method Begin(id: Id) returns (r: Result<(), Error>)
      requires Ready() && host.aptActive.None? && id !in host.txs && id !in host.releases
      modifies host
      ensures Ready() && old(host.states) <= host.states
      ensures r == Err(Refused) <==> old(host.journal).Some?
      ensures r.Ok? ==> Driving(host.Snap(), Begun) && host.journal == Some(Journal(id, Begun, old(host.current), None, false, None))
      ensures r.Ok? ==> host.packages == old(host.packages) == host.before && host.current == old(host.current)
                        && host.aptActive == old(host.aptActive) && host.txs == old(host.txs) && host.releases == old(host.releases)
      ensures r.Err? ==> host.Snap() == old(host.Snap())
    {
      hide Inv, Run;
      if host.journal.Some? {
        return Err(Refused);
      }
      if * {
        return Err(Unavailable);
      }
      host.journal := Some(Journal(id, Begun, host.current, None, false, None));
      host.before, host.driver := host.packages, true;
      host.Record(Step.Begin(id));
      return Ok(());
    }

    method AptPrepared() returns (r: Result<(), Error>)
      requires Ready() && Driving(host.Snap(), Begun) && (host.aptActive.None? <==> !Mine(host.Snap()))
      modifies host
      ensures Ready() && old(host.states) <= host.states
      ensures r.Ok? ==> host.Snap() == UpdateModel.Save(old(host.Snap()),
                          old(host.journal).value.(state := JournalState.AptPrepared, aptChanged := Some(host.aptActive.Some?)))
      ensures r.Err? ==> host.Snap() == old(host.Snap())
    {
      hide Inv, Keep, Run;
      if host.aptActive.Some? && host.aptActive.value != host.journal.value.id {
        return Err(Refused);
      }
      r := Save(host.journal.value.(aptChanged := Some(host.aptActive.Some?), state := JournalState.AptPrepared), SaveAptPrepared);
    }

    method Stage() returns (r: Result<(), Error>)
      requires Ready() && Driving(host.Snap(), JournalState.AptPrepared) && AptReady(host.Snap())
      modifies host
      ensures Ready() && old(host.states) <= host.states
      ensures r.Ok? ==> host.Snap() == UpdateModel.Save(old(host.Snap()),
                          old(host.journal).value.(state := Staging, candidate := Some(old(host.journal).value.id), activated := false))
      ensures r.Err? ==> host.Snap() == old(host.Snap())
    {
      hide Inv, Keep, Run;
      r := Save(host.journal.value.(candidate := Some(host.journal.value.id), activated := false, state := Staging), SaveStaging);
    }

    method CandidateDiscarded() returns (r: Result<(), Error>)
      requires Ready() && Driving(host.Snap(), Staging) && host.journal.value.aptChanged == Some(false)
      modifies host
      ensures Ready() && old(host.states) <= host.states
      ensures r.Ok? ==> host.Snap() == UpdateModel.Save(old(host.Snap()), old(host.journal).value.(state := JournalState.AptPrepared, candidate := None))
      ensures r.Err? ==> host.Snap() == old(host.Snap())
    {
      hide Inv, Keep, Run;
      if host.journal.value.activated {
        return Err(Refused);
      }
      r := Save(host.journal.value.(candidate := None, state := JournalState.AptPrepared), SaveDiscarded);
    }

    method Activate() returns (r: Result<(), Error>)
      requires Ready() && Driving(host.Snap(), Staging)
      modifies host
      ensures Ready() && old(host.states) <= host.states
      ensures r.Ok? ==> old(host.journal).value.id in host.releases
                        && host.Snap() == UpdateModel.Save(old(host.Snap()), old(host.journal).value.(state := Activating, activated := true))
      ensures r.Err? ==> host.Snap() == old(host.Snap())
    {
      hide Inv, Keep, Run;
      if host.journal.value.id !in host.releases {
        return Err(Refused);
      }
      r := Save(host.journal.value.(activated := true, state := Activating), SaveActivating);
    }

    method MarkHealthy() returns (r: Result<(), Error>)
      requires Ready() && Enabled(host.Snap(), SaveHealthy)
      modifies host
      ensures Ready() && old(host.states) <= host.states
      ensures r.Ok? ==> host.Snap() == UpdateModel.Save(old(host.Snap()), old(host.journal).value.(state := Healthy))
      ensures r.Err? ==> host.Snap() == old(host.Snap())
    {
      hide Inv, Keep, Run;
      if host.journal.value.state != JournalState.AptPrepared && host.journal.value.state != Activating {
        return Err(Refused);
      }
      r := Save(host.journal.value.(state := Healthy), SaveHealthy);
    }

    method Commit() returns (r: Result<(), Error>)
      requires Ready() && Enabled(host.Snap(), SaveCommitted)
      modifies host
      ensures Ready() && old(host.states) <= host.states
      ensures r.Ok? ==> host.Snap() == UpdateModel.Save(old(host.Snap()), old(host.journal).value.(state := Committed))
      ensures r.Err? ==> host.Snap() == old(host.Snap())
    {
      hide Inv, Keep, Run;
      if host.journal.value.state != Healthy {
        return Err(Refused);
      }
      r := Save(host.journal.value.(state := Committed), SaveCommitted);
    }

    /** Atomic replacement of the `current` link by recovery. */
    method SwitchTools(target: Id) returns (r: Result<(), Error>)
      requires Ready() && host.journal.Some? && !host.driver
      requires target == if Keep(host.Snap()) then Target(host.journal.value) else host.journal.value.previous
      modifies host
      ensures Ready() && old(host.states) <= host.states
      ensures r.Ok? ==> host.Snap() == old(host.Snap()).(current := target)
      ensures r.Err? ==> host.Snap() == old(host.Snap()) && r == Err(Unavailable)
    {
      TargetsExist(host.Snap());
      hide Inv, Run;
      assert target in host.releases;
      if * {
        return Err(Unavailable);
      }
      host.current := target;
      if Keep(old(host.Snap())) {
        host.Record(SwitchForward);
      } else {
        host.Record(SwitchBack);
      }
      return Ok(());
    }

    /** Delete the candidate of an undone update; never the release that `current` points at. */
    method RemoveStagedCandidate() returns (r: Result<(), Error>)
      requires Ready() && host.journal.Some? && !host.driver && !Keep(host.Snap()) && host.aptActive.None?
      requires host.current == host.journal.value.previous
      modifies host
      ensures Ready() && old(host.states) <= host.states
      ensures host.Snap() == old(host.Snap()).(releases := host.releases)
      ensures r.Ok? && host.journal.value.candidate.Some? ==> host.journal.value.candidate.value !in host.releases
      ensures r.Err? ==> host.Snap() == old(host.Snap()) && r == Err(Unavailable)
    {
      TargetsExist(host.Snap());
      hide Inv, Keep, Run;
      if host.journal.value.candidate.None? {
        return Ok(());
      }
      var candidate := host.journal.value.candidate.value;
      if candidate in host.releases && candidate != host.current {
        if * {
          return Err(Unavailable);
        }
        host.releases := host.releases - {candidate};
        host.Record(RemoveCandidate);
      }
      return Ok(());
    }

    method Clear() returns (r: Result<(), Error>)
      requires Ready() && Enabled(host.Snap(), ClearJournal)
      modifies host
      ensures Ready() && old(host.states) <= host.states
      ensures r.Ok? ==> host.Snap() == old(host.Snap()).(journal := None)
      ensures r.Err? ==> host.Snap() == old(host.Snap()) && r == Err(Unavailable)
    {
      hide Inv, Keep, Run;
      if * {
        return Err(Unavailable);
      }
      host.journal := None;
      host.Record(ClearJournal);
      return Ok(());
    }

    /** How an update ended: both sides forward, or both as they were. */
    ghost predicate Ended(kept: bool, j: Journal, plan: Plan)
      reads host
    {
      && host.journal.None? && host.aptActive.None?
      && if kept then host.current == Target(j) && host.packages == Upgraded(host.before, plan)
         else host.current == j.previous && host.packages == host.before && (j.candidate.Some? ==> j.candidate.value !in host.releases)
    }

    /** Finish an unfinished update, from whatever point a crash left it, and however often. */
    method Recover() returns (r: Result<(), Error>)
      requires Ready()
      modifies host
      ensures Ready() && old(host.states) <= host.states
      ensures old(host.journal).None? ==> r == Ok(()) && host.Snap() == old(host.Snap()).(driver := host.driver)
      ensures r.Ok? && old(host.journal).Some? ==> Ended(old(Keep(host.Snap())), old(host.journal).value, PlanOf(old(host.Snap())))
      ensures r.Err? ==> r == Err(Unavailable) && host.journal == old(host.journal) && !host.driver
                         && (Keep(host.Snap()) <==> old(Keep(host.Snap())))
      ensures host.before == old(host.before)
    {
      host.driver := false;
      host.Record(StartRecovery);
      NoJournalNoApt(host.Snap());
      if host.journal.None? && host.aptActive.None? {
        return Ok(());
      }
      var j := host.journal.value;
      SettledEarly(host.Snap());
      if (j.state == Begun || j.state == Committed) && host.aptActive.None? {
        if * {
          return Err(Unavailable);
        }
        EndsAgree(host.Snap());
        r := Clear();
        return;
      }
      hide Inv, Keep, PlanOf, Run;
      var decided := RecoverPackages(j);
      if decided.Err? {
        return Err(Unavailable);
      }
      r := FinishTools(j, decided.value);
    }

    /** The decision, and the way back: tools first, packages next. */
    method RecoverPackages(j: Journal) returns (r: Result<bool, Error>)
      requires Ready() && host.journal == Some(j) && !host.driver
      modifies host
      ensures Ready() && old(host.states) <= host.states
      ensures host.journal == Some(j) && !host.driver && host.before == old(host.before)
      ensures (Keep(host.Snap()) <==> old(Keep(host.Snap()))) && PlanOf(host.Snap()) == PlanOf(old(host.Snap()))
      ensures r.Ok? ==> host.aptActive.None? && r.value == Keep(host.Snap()) && (!r.value ==> host.current == j.previous)
      ensures r.Err? ==> r == Err(Unavailable)
    {
      hide Inv, Keep, PlanOf, SameDecision, Run;
      var aptState := if j.id in host.txs then Some(host.txs[j.id].state) else None;
      var aptChanged := j.aptChanged == Some(true) || host.aptActive == Some(j.id);
      var packageCommitExists := aptChanged && aptState == Some(AptCommitted);
      var keepCandidate := (j.state == Healthy || j.state == Committed) && (!aptChanged || packageCommitExists);
      ghost var start := host.Snap();
      KeepsIff(start, j);
      SameDecisionAsItself(start, start);
      if !keepCandidate {
        var switched := SwitchTools(j.previous);
        SameDecisionAsItself(start, host.Snap());
        KeepIsStable(start, start, host.Snap());
        if switched.Err? {
          return Err(Unavailable);
        }
      }
      ghost var switched := host.Snap();
      KeepIgnoresTools(start, switched);
      var recovered := apt.Recover();
      KeepIsStable(start, switched, host.Snap());
      if recovered.Err? {
        return Err(Unavailable);
      }
      return Ok(keepCandidate);
    }

    /** The way forward, or the last of the way back; then the journal goes. */
    method FinishTools(j: Journal, keepCandidate: bool) returns (r: Result<(), Error>)
      requires Ready() && host.journal == Some(j) && !host.driver && host.aptActive.None?
      requires keepCandidate == Keep(host.Snap()) && (!keepCandidate ==> host.current == j.previous)
      modifies host
      ensures Ready() && old(host.states) <= host.states && host.before == old(host.before)
      ensures r.Ok? ==> Ended(keepCandidate, j, PlanOf(old(host.Snap())))
      ensures r.Err? ==> r == Err(Unavailable) && host.journal == Some(j) && !host.driver && (Keep(host.Snap()) <==> keepCandidate)
    {
      ghost var start := host.Snap();
      hide Inv, Keep, Run;
      if keepCandidate {
        r := SwitchTools(if j.candidate.Some? then j.candidate.value else j.previous);
        KeepIgnoresTools(start, host.Snap());
        if r.Err? {
          return;
        }
      }
      // the doctor
      if * {
        return Err(Unavailable);
      }
      if !keepCandidate {
        r := RemoveStagedCandidate();
        KeepIgnoresTools(start, host.Snap());
        if r.Err? {
          return;
        }
      }
      // the services
      if * {
        return Err(Unavailable);
      }
      EndsAgree(host.Snap());
      r := Clear();
    }
  }

  /** The daily update script: the order in which it calls the two helpers, and its exit trap. */
  class DailyUpdate {
    const host: Host
    const apt: AptTransaction
    const runtime: RuntimeJournal

    constructor (host: Host, apt: AptTransaction, runtime: RuntimeJournal)
      requires apt.host == host && runtime.host == host && runtime.apt == apt
      ensures this.host == host && this.apt == apt && this.runtime == runtime
    {
      this.host, this.apt, this.runtime := host, apt, runtime;
    }

    /** The journal still belongs to the same update. */
    ghost predicate SameUpdate(j: Journal, now: Option<Journal>) {
      now.Some? && now.value.id == j.id && now.value.previous == j.previous
    }

    ghost predicate Ready()
      reads this, host
    {
      apt.host == host && runtime.host == host && runtime.apt == apt && host.Valid()
    }

    /** The package part: prepare, record it in the runtime journal, apply, begin validation. */
    method UpdatePackages(id: Id, plan: Plan) returns (ok: bool)
      requires Ready() && Driving(host.Snap(), Begun) && id == host.journal.value.id && host.aptActive.None? && id !in host.txs
      modifies host
      ensures Ready() && old(host.states) <= host.states
      ensures SameUpdate(old(host.journal).value, host.journal) && host.before == old(host.before)
      ensures ok ==> Driving(host.Snap(), JournalState.AptPrepared) && AptReady(host.Snap())
    {
      hide Inv, Keep, Run;
      var prepared := apt.Prepare(id, plan);
      if prepared.Err? {
        return false;
      }
      var recorded := runtime.AptPrepared();
      if recorded.Err? {
        return false;
      }
      var applied := apt.Apply();
      if applied.Err? {
        return false;
      }
      var validating := apt.BeginValidation();
      return validating.Ok?;
    }

    /** A candidate that turned out to change nothing is deleted and forgotten. */
    method Discard() returns (ok: bool)
      requires Ready() && Driving(host.Snap(), Staging) && host.journal.value.aptChanged == Some(false) && host.aptActive.None?
      modifies host
      ensures Ready() && old(host.states) <= host.states
      ensures SameUpdate(old(host.journal).value, host.journal) && host.before == old(host.before)
      ensures ok ==> Enabled(host.Snap(), SaveHealthy)
    {
      hide Inv, Keep, Run;
      host.releases := host.releases - {host.journal.value.id};
      host.Record(DropRelease);
      var discarded := runtime.CandidateDiscarded();
      return discarded.Ok?;
    }

    /** The candidate becomes current. */
    method SwitchOver() returns (ok: bool)
      requires Ready() && Driving(host.Snap(), Staging) && AptReady(host.Snap())
      modifies host
      ensures Ready() && old(host.states) <= host.states
      ensures SameUpdate(old(host.journal).value, host.journal) && host.before == old(host.before)
      ensures ok ==> Enabled(host.Snap(), SaveHealthy)
    {
      CandidateIsOwn(host.Snap());
      hide Inv, Keep, Run;
      var activating := runtime.Activate();
      if activating.Err? {
        return false;
      }
      if * {
        return false;
      }
      host.current := host.journal.value.id;
      host.Record(SwitchToCandidate);
      return true;
    }

    method BuildRelease()
      requires Ready() && Driving(host.Snap(), Staging)
      modifies host
      ensures Ready() && old(host.states) <= host.states
      ensures host.Snap() == old(host.Snap()).(releases := old(host.releases) + {old(host.journal).value.id})
    {
      hide Inv, Keep, Run;
      host.releases := host.releases + {host.journal.value.id};
      host.Record(Step.BuildRelease);
    }

    /** The tools part: build a candidate, then discard it or switch to it. */
    method UpdateTools(unchanged_: bool) returns (ok: bool)
      requires Ready() && Driving(host.Snap(), JournalState.AptPrepared) && AptReady(host.Snap())
      modifies host
      ensures Ready() && old(host.states) <= host.states
      ensures SameUpdate(old(host.journal).value, host.journal) && host.before == old(host.before)
      ensures ok ==> Enabled(host.Snap(), SaveHealthy)
    {
      hide Inv, Keep, Run, Enabled, After;
      AptChangedIsKnown(host.Snap());
      var staged := runtime.Stage();
      if staged.Err? {
        return false;
      }
      if * {
        return false;
      }
      BuildRelease();
      if unchanged_ && host.aptActive.None? {
        ok := Discard();
      } else {
        ok := SwitchOver();
      }
    }

    /** Healthy runtime, then committed packages, then committed runtime. */
    method CommitBoth() returns (ok: bool)
      requires Ready() && Enabled(host.Snap(), SaveHealthy)
      modifies host
      ensures Ready() && old(host.states) <= host.states
      ensures SameUpdate(old(host.journal).value, host.journal) && host.before == old(host.before)
      ensures ok ==> Driving(host.Snap(), Committed)
    {
      AptChangedIsKnown(host.Snap());
      hide Inv, Keep, Run;
      var healthy := runtime.MarkHealthy();
      if healthy.Err? {
        return false;
      }
      var committed := apt.Commit();
      if committed.Err? {
        return false;
      }
      var finished := runtime.Commit();
      return finished.Ok?;
    }

    /** One update of a settled host. Whatever fails on the way, a recovery that gets through leaves
        no journal open and both sides on the same side. */
    method Update(id: Id, plan: Plan, unchanged_: bool) returns (r: Result<(), Error>)
      requires Ready() && host.journal.None? && host.aptActive.None? && id !in host.txs && id !in host.releases
      modifies host
      ensures Ready() && old(host.states) <= host.states
      ensures r.Ok? ==> host.journal.None? && host.aptActive.None? && host.before == old(host.packages)
                        && exists kept, j, p :: runtime.Ended(kept, j, p) && j.id == id && j.previous == old(host.current)
    {
      hide Inv, Keep, Run, Enabled;
      var begun := runtime.Begin(id);
      if begun.Err? {
        return Err(Unavailable);
      }
      var ok := UpdatePackages(id, plan);
      if ok {
        ok := UpdateTools(unchanged_);
      }
      if ok {
        ok := CommitBoth();
      }
      ghost var last := host.Snap();
      r := runtime.Recover();
      assert r.Ok? ==> runtime.Ended(Keep(last), last.journal.value, PlanOf(last));
    }
  }

  lemma CandidateIsOwn(s: State)
    requires Inv(s)
    ensures Driving(s, Staging) ==> s.journal.value.candidate == Some(s.journal.value.id)
  {
  }

  lemma AptChangedIsKnown(s: State)
    requires Inv(s)
    ensures s.journal.Some? && s.journal.value.state != Begun ==> s.journal.value.aptChanged.Some?
    ensures Driving(s, JournalState.AptPrepared) && AptReady(s) ==> s.journal.value.aptChanged == Some(s.aptActive.Some?)
    ensures Enabled(s, SaveHealthy) ==> s.journal.value.aptChanged == Some(s.aptActive.Some?)
  {
    if s.driver && s.journal.Some? && s.journal.value.state in {JournalState.AptPrepared, Activating} {
      assert PackagesOK(s);
      assert Mine(s) <==> s.aptActive.Some?;
      assert s.journal.value.aptChanged.value <==> s.aptActive.Some?;
    }
  }
}
