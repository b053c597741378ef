/** A runtime update as a state machine over two journals that know nothing of each other's commits:
    the tools pointer with its runtime journal, and the package set with its APT transaction. The
    order of the driver script is part of the guards; a crash is a run that stops, after which only
    recovery acts. */
module UpdateModel {

  import opened Wrappers

  type Id = nat

  type Package = nat

  type Version = nat

  datatype Upgrade = Upgrade(old_: Version, new_: Version)

  type Plan = map<Package, Upgrade>

  datatype AptState =
    | Prepared | Applying | Applied | Validating | RollingBack | RecoveryRequired | Aborted | AptCommitted | RolledBack

  /** `stamp` orders transactions by their last state change. */
  datatype AptTx = AptTx(state: AptState, plan: Plan, stamp: nat)

  datatype JournalState = Begun | AptPrepared | Staging | Activating | Healthy | Committed

  /** The runtime journal; a release is named by the update that built it. */
  datatype Journal = Journal(id: Id, state: JournalState, previous: Id, candidate: Option<Id>, activated: bool, aptChanged: Option<bool>)

  datatype State = State(
    journal: Option<Journal>,
    aptActive: Option<Id>,
    txs: map<Id, AptTx>,
    clock: nat,                      // above every stamp
    packages: map<Package, Version>,
    before: map<Package, Version>,   // the package set when the update began
    current: Id,
    releases: set<Id>,
    driver: bool)                    // the driver script of this update is still running it

  datatype Step =
    // the driver
    | Begin(id: Id)
    | PublishPlan(plan: Plan)
    | ActivateApt
    | SaveAptPrepared
    | SaveStaging
    | BuildRelease
    | DropRelease
    | SaveDiscarded
    | SaveActivating
    | SwitchToCandidate
    | SaveHealthy
    | SaveCommitted
    // the package transaction
    | WriteApt(state: AptState)
    | InstallNew(package: Package)
    | InstallOld(package: Package)
    | ClearApt
    | PruneApt(ids: set<Id>)
    // recovery
    | StartRecovery
    | SwitchBack
    | SwitchForward
    | RemoveCandidate
    | ClearJournal
    // retention of old releases
    | Retain(removed: set<Id>)

  // ---- vocabulary ---------------------------------------------------------------------------

  predicate OnOld(packages: map<Package, Version>, plan: Plan) {
    forall p | p in plan :: p in packages && packages[p] == plan[p].old_
  }

  predicate OnNew(packages: map<Package, Version>, plan: Plan) {
    forall p | p in plan :: p in packages && packages[p] == plan[p].new_
  }

  /** Nothing outside the plan differs, and every planned package is on one of its two sides. */
  predicate Between(packages: map<Package, Version>, before: map<Package, Version>, plan: Plan) {
    && packages.Keys == before.Keys && plan.Keys <= before.Keys
    && (forall p | p in packages && p !in plan :: packages[p] == before[p])
    && (forall p | p in plan :: before[p] == plan[p].old_ && (packages[p] == plan[p].old_ || packages[p] == plan[p].new_))
  }

  predicate Final(state: AptState) { state == Aborted || state == AptCommitted || state == RolledBack }

  predicate Recoverable(state: AptState) {
    state == Applying || state == Applied || state == Validating || state == RollingBack || state == RecoveryRequired
  }

  predicate Mine(s: State) { s.journal.Some? && s.journal.value.id in s.txs }

  function Own(s: State): AptTx
    requires Mine(s)
  {
    s.txs[s.journal.value.id]
  }

  /** What the recovery of an update decides from the two journals. */
  predicate Keep(s: State) {
    s.journal.Some? &&
    var j := s.journal.value;
    var aptChanged := j.aptChanged == Some(true) || s.aptActive == Some(j.id);
    (j.state == Healthy || j.state == Committed) && (aptChanged ==> Mine(s) && Own(s).state == AptCommitted)
  }

  /** The release a kept update runs on. */
  function Target(j: Journal): Id { if j.candidate.Some? then j.candidate.value else j.previous }

  predicate In(s: State, state: JournalState) { s.journal.Some? && s.journal.value.state == state }

  predicate Driving(s: State, state: JournalState) { s.driver && In(s, state) }

  predicate AptIs(s: State, states: set<AptState>) { Mine(s) && s.aptActive == Some(s.journal.value.id) && Own(s).state in states }

  /** The package transaction of this update, if it has one, is past its checks. */
  predicate AptReady(s: State) { s.aptActive.None? || AptIs(s, {Validating}) }

  function Save(s: State, j: Journal): State { s.(journal := Some(j)) }

  function Stamped(s: State, tx: AptTx): State
    requires s.journal.Some?
  {
    s.(txs := s.txs[s.journal.value.id := tx.(stamp := s.clock)], clock := s.clock + 1)
  }

  predicate MayWriteApt(s: State, to: AptState) {
    match to
    case Prepared => false
    case Applying => AptIs(s, {Prepared}) && Driving(s, AptPrepared)
    case Applied => AptIs(s, {Applying}) && Driving(s, AptPrepared) && OnNew(s.packages, Own(s).plan)
    case Validating => AptIs(s, {Applied}) && Driving(s, AptPrepared)
    case AptCommitted => AptIs(s, {Applied, Validating}) && Driving(s, Healthy) && OnNew(s.packages, Own(s).plan)
    case Aborted => AptIs(s, {Prepared}) && !s.driver && !Keep(s)
    case RollingBack => Mine(s) && AptIs(s, {Own(s).state}) && Recoverable(Own(s).state) && !s.driver && !Keep(s) && s.current == s.journal.value.previous
    case RecoveryRequired => Mine(s) && AptIs(s, {Own(s).state}) && Recoverable(Own(s).state) && !s.driver
    case RolledBack => AptIs(s, {RollingBack}) && !s.driver && OnOld(s.packages, Own(s).plan)
  }

  /** Deletable by retention: some finished transaction that stays is at least as new. */
  ghost predicate Obsolete(s: State, ids: set<Id>) {
    forall id | id in ids :: id in s.txs && Final(s.txs[id].state)
      && exists o :: o in s.txs && o !in ids && Final(s.txs[o].state) && s.txs[o].stamp >= s.txs[id].stamp
  }

  ghost predicate Enabled(s: State, step: Step) {
    match step
    case Begin(id) => s.journal.None? && s.aptActive.None? && id !in s.txs && id !in s.releases
    case PublishPlan(plan) =>
      Driving(s, Begun) && s.aptActive.None? && !Mine(s) && plan != map[]
      && Between(s.packages, s.before, plan) && OnOld(s.packages, plan)
    case ActivateApt => Driving(s, Begun) && s.aptActive.None? && Mine(s)
    case SaveAptPrepared => Driving(s, Begun) && (s.aptActive.None? <==> !Mine(s))
    case SaveStaging => Driving(s, AptPrepared) && AptReady(s)
    case BuildRelease => Driving(s, Staging)
    case DropRelease => Driving(s, Staging)
    case SaveDiscarded => Driving(s, Staging) && s.journal.value.aptChanged == Some(false)
    case SaveActivating => Driving(s, Staging) && s.journal.value.id in s.releases
    case SwitchToCandidate => Driving(s, Activating)
    case SaveHealthy =>
      AptReady(s) && ((Driving(s, Activating) && s.current == Target(s.journal.value))
                      || (Driving(s, AptPrepared) && s.journal.value.candidate.None? && s.journal.value.aptChanged == Some(false)))
    case SaveCommitted =>
      Driving(s, Healthy) && s.aptActive.None? && (s.journal.value.aptChanged == Some(true) ==> Mine(s) && Own(s).state == AptCommitted)
    case WriteApt(to) => MayWriteApt(s, to)
    case InstallNew(p) => AptIs(s, {Applying}) && s.driver && p in Own(s).plan
    case InstallOld(p) => AptIs(s, {RollingBack}) && !s.driver && p in Own(s).plan
    case ClearApt => AptIs(s, {Aborted, AptCommitted, RolledBack})
    case PruneApt(ids) => s.aptActive.None? && Obsolete(s, ids)
    case StartRecovery => true
    case SwitchBack => s.journal.Some? && !s.driver && !Keep(s)
    case SwitchForward => s.journal.Some? && !s.driver && Keep(s)
    case RemoveCandidate =>
      s.journal.Some? && !s.driver && !Keep(s) && s.aptActive.None? && s.journal.value.candidate.Some?
      && s.current != s.journal.value.candidate.value
    case ClearJournal =>
      s.journal.Some? && !s.driver && s.aptActive.None?
      && (if Keep(s) then s.current == Target(s.journal.value)
          else s.current == s.journal.value.previous
               && (s.journal.value.candidate.Some? ==> s.journal.value.candidate.value !in s.releases))
    case Retain(removed) => s.journal.None? && s.current !in removed
  }

  ghost function After(s: State, step: Step): State
    requires Enabled(s, step)
  {
    match step
    case Begin(id) => s.(journal := Some(Journal(id, Begun, s.current, None, false, None)), before := s.packages, driver := true)
    case PublishPlan(plan) => Stamped(s, AptTx(Prepared, plan, 0))
    case ActivateApt => s.(aptActive := Some(s.journal.value.id))
    case SaveAptPrepared => Save(s, s.journal.value.(state := AptPrepared, aptChanged := Some(s.aptActive.Some?)))
    case SaveStaging => Save(s, s.journal.value.(state := Staging, candidate := Some(s.journal.value.id), activated := false))
    case BuildRelease => s.(releases := s.releases + {s.journal.value.id})
    case DropRelease => s.(releases := s.releases - {s.journal.value.id})
    case SaveDiscarded => Save(s, s.journal.value.(state := AptPrepared, candidate := None))
    case SaveActivating => Save(s, s.journal.value.(state := Activating, activated := true))
    case SwitchToCandidate => s.(current := Target(s.journal.value))
    case SaveHealthy => Save(s, s.journal.value.(state := Healthy))
    case SaveCommitted => Save(s, s.journal.value.(state := Committed))
    case WriteApt(to) => Stamped(s, Own(s).(state := to))
    case InstallNew(p) => s.(packages := s.packages[p := Own(s).plan[p].new_])
    case InstallOld(p) => s.(packages := s.packages[p := Own(s).plan[p].old_])
    case ClearApt => s.(aptActive := None)
    case PruneApt(ids) => s.(txs := s.txs - ids)
    case StartRecovery => s.(driver := false)
    case SwitchBack => s.(current := s.journal.value.previous)
    case SwitchForward => s.(current := Target(s.journal.value))
    case RemoveCandidate => s.(releases := s.releases - {s.journal.value.candidate.value})
    case ClearJournal => s.(journal := None)
    case Retain(removed) => s.(releases := s.releases - removed)
  }

  // ---- invariant ----------------------------------------------------------------------------

  /** Which release is current, and which ones exist, by the journal's state. */
  predicate ToolsOK(s: State)
    requires s.journal.Some?
  {
    var j := s.journal.value;
    && j.previous in s.releases && j.previous != j.id
    && (j.candidate.Some? ==> j.candidate == Some(j.id))
    && (s.current == j.previous || s.current == j.id)
    && (j.state == Begun || j.state == AptPrepared || j.state == Staging ==> s.current == j.previous && !j.activated)
    && (j.state == Begun || j.state == AptPrepared ==> j.candidate.None?)
    && (j.state == Staging || j.state == Activating ==> j.candidate.Some?)
    && (s.current == j.id ==> j.candidate.Some?)
    && (s.driver && (j.state == Activating || (j.state == Healthy && j.candidate.Some?)) ==> j.id in s.releases)
    && (Keep(s) && j.candidate.Some? ==> j.id in s.releases)
    && ((j.state == Healthy || j.state == Committed) && (s.driver || Keep(s)) ==> s.current == Target(j))
    && (j.state == Committed ==> Keep(s))
  }

  /** Which package sides are possible, by the transaction's state. */
  predicate PackagesOK(s: State)
    requires s.journal.Some?
  {
    var j := s.journal.value;
    && (j.state == Begun <==> j.aptChanged.None?)
    && (j.state != Begun ==> (j.aptChanged == Some(true) <==> Mine(s)))
    && (s.aptActive.Some? ==> s.aptActive == Some(j.id) && Mine(s))
    && (!Mine(s) ==> s.packages == s.before)
    && (Mine(s) ==>
         var tx := Own(s);
         && Between(s.packages, s.before, tx.plan) && tx.plan != map[]
         && (tx.state == Prepared || tx.state == Aborted || tx.state == RolledBack ==> OnOld(s.packages, tx.plan))
         && (tx.state == Applied || tx.state == Validating || tx.state == AptCommitted ==> OnNew(s.packages, tx.plan))
         && (s.aptActive.None? ==> Final(tx.state) || (tx.state == Prepared && j.state == Begun))
         && (j.state == Begun ==> tx.state == Prepared || tx.state == Aborted)
         && (tx.state == AptCommitted ==> j.state == Healthy || j.state == Committed)
         && (forall o | o in s.txs && o != j.id :: s.txs[o].stamp < tx.stamp)
         && (s.driver ==> tx.state != RollingBack && tx.state != RecoveryRequired && tx.state != RolledBack && tx.state != Aborted)
         && (s.driver && (j.state == Staging || j.state == Activating) ==> tx.state == Validating)
         && (s.driver && j.state == Healthy ==> tx.state == Validating || tx.state == AptCommitted))
  }

  ghost predicate Inv(s: State) {
    && s.current in s.releases
    && (forall id | id in s.txs :: s.txs[id].stamp < s.clock)
    && (s.journal.None? ==> s.aptActive.None?)
    && (s.journal.Some? ==> ToolsOK(s) && PackagesOK(s))
  }
}
