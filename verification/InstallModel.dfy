/** The installer's rollback journal as a state machine: one step for every durable write, marker
    change, restored file and unit action, with the rest of the host acting in between. A crash
    is a run that stops; recovery starts from whatever state it left. */
module InstallModel {

  import opened Wrappers

  type Id = nat

  type Target = nat

  type Content = nat

  datatype Sidecar = Wal | Shm | Journal

  /** What a database file holds: pages of its own, or what a backup read through sidecars found. */
  datatype Data = Pages(content: Content) | Merged(pages: Data, sidecars: map<Sidecar, Content>)

  datatype TxState = OBSERVING | PREPARED | HEALTHY | COMMITTED | RESTORING | RECOVERY_REQUIRED | RESTORED

  /** What the manifest says about the database. */
  datatype Database = NotManaged | Planned | WasAbsent | Backup(data: Data)

  /** A transaction directory: its state file, its target snapshot (`None` for an absent target) and
      its database entry; `prepared` records that PREPARED was once durable. */
  datatype Tx = Tx(state: TxState, prepared: bool, snapshot: map<Target, Option<Content>>, database: Database)

  /** The main database file, and whether recovery or the application wrote it last. */
  datatype Main = Main(data: Data, restored: bool)

  datatype State = State(
    active: Option<Id>,
    pending: Option<Id>,
    txs: map<Id, Tx>,
    targets: map<Target, Content>,
    main: Option<Main>,
    sidecars: map<Sidecar, Content>,
    running: bool)

  datatype Step =
    // the world: administrators, the application, the installer's own mutations
    | Edit(files: map<Target, Content>)
    | Work(main: Option<Data>, sidecars: map<Sidecar, Content>)
    | Mutate(files: map<Target, Content>, main: Option<Data>, sidecars: map<Sidecar, Content>, running: bool)
    // the journal
    | Publish(id: Id, managed: set<Target>, database: Database)
    | Activate(id: Id)
    | RecordDatabase(id: Id, database: Database)
    | WriteState(id: Id, state: TxState)
    | PublishPending(id: Id)
    | ClearActive
    | ClearPending
    | Forget(ids: set<Id>)
    // recovery
    | Stop
    | Start
    | RemoveSidecar(sidecar: Sidecar)
    | RestoreMain
    | RestoreTarget(target: Target)

  // ---- vocabulary ---------------------------------------------------------------------------

  function Look(files: map<Target, Content>, t: Target): Option<Content> { if t in files then Some(files[t]) else None }

  function SnapshotOf(files: map<Target, Content>, managed: set<Target>): map<Target, Option<Content>> {
    map t | t in managed :: Look(files, t)
  }

  predicate TargetsRestored(s: State, tx: Tx) { forall t | t in tx.snapshot :: Look(s.targets, t) == tx.snapshot[t] }

  /** What a reader of the database sees: the main file as its sidecars amend it. */
  function Meaning(main: Data, sidecars: map<Sidecar, Content>): Data {
    if sidecars == map[] then main else Merged(main, sidecars)
  }

  /** The database file equals the backup, and no sidecar may change what it means. */
  predicate DatabaseRestored(s: State, tx: Tx) {
    match tx.database
    case NotManaged => true
    case Planned => false
    case WasAbsent => s.main.None? && s.sidecars == map[]
    case Backup(c) => s.main == Some(Main(c, true)) && s.sidecars == map[]
  }

  predicate Final(state: TxState) { state == COMMITTED || state == RESTORED }

  predicate Recoverable(state: TxState) { state == PREPARED || state == RESTORING || state == RECOVERY_REQUIRED }

  predicate ActiveIn(s: State, states: set<TxState>) {
    s.active.Some? && s.active.value in s.txs && s.txs[s.active.value].state in states
  }

  predicate HasActive(s: State) { s.active.Some? && s.active.value in s.txs }

  function Put(files: map<Target, Content>, t: Target, content: Option<Content>): map<Target, Content> {
    if content.Some? then files[t := content.value] else files - {t}
  }

  /** What the main file is once restored. */
  function Saved(database: Database): Option<Main> {
    if database.Backup? then Some(Main(database.data, true)) else None
  }

  function Live(main: Option<Data>): Option<Main> { if main.Some? then Some(Main(main.value, false)) else None }

  /** The state changes any command makes, and what it has established before. */
  predicate MayWrite(s: State, id: Id, to: TxState)
    requires id in s.txs
  {
    var tx := s.txs[id];
    && s.active == Some(id)
    && match to
       case OBSERVING => false
       case PREPARED => tx.state == OBSERVING && !tx.database.Planned?
       case HEALTHY => tx.state == PREPARED
       case COMMITTED => tx.state == HEALTHY
       case RESTORING => Recoverable(tx.state)
       case RECOVERY_REQUIRED => Recoverable(tx.state)
       case RESTORED => tx.state == OBSERVING || (tx.state == RESTORING && !s.running && DatabaseRestored(s, tx) && TargetsRestored(s, tx))
  }

  predicate Enabled(s: State, step: Step) {
    match step
    case Edit(_) => s.active.None?
    case Work(_, _) => s.running
    case Mutate(_, _, _, _) => ActiveIn(s, {PREPARED})
    case Publish(id, _, database) => id !in s.txs && s.active.None? && s.pending.None? && (database.NotManaged? || database.Planned?)
    case Activate(id) =>
      id in s.txs && s.active.None? && s.pending.None? && s.txs[id].state == OBSERVING && TargetsRestored(s, s.txs[id])
    case RecordDatabase(id, database) =>
      id in s.txs && s.active == Some(id) && s.txs[id].state == OBSERVING && s.txs[id].database.Planned?
      && (database.WasAbsent? || database.Backup?)
    case WriteState(id, to) => id in s.txs && MayWrite(s, id, to)
    case PublishPending(id) =>
      id in s.txs && Final(s.txs[id].state) && (s.active == Some(id) || s.active.None?) && (s.pending.None? || s.pending == Some(id))
    case ClearActive => s.active.Some? && s.pending == s.active
    case ClearPending => s.pending.Some? && s.active.None?
    case Forget(ids) => s.active.None? && s.pending.None? && forall id | id in ids :: id in s.txs && Final(s.txs[id].state)
    case Stop => true
    // the host allows these at any time, as long as there is something to restore from
    case Start => true
    case RemoveSidecar(_) => true
    case RestoreMain => HasActive(s) && (s.txs[s.active.value].database.Backup? || s.txs[s.active.value].database.WasAbsent?)
    case RestoreTarget(t) => HasActive(s) && t in s.txs[s.active.value].snapshot
  }

  function WithTx(s: State, id: Id, tx: Tx): State { s.(txs := s.txs[id := tx]) }

  function After(s: State, step: Step): State
    requires Enabled(s, step)
  {
    match step
    case Edit(files) => s.(targets := files)
    case Work(main, sidecars) => s.(main := Live(main), sidecars := sidecars)
    case Mutate(files, main, sidecars, running) => s.(targets := files, main := Live(main), sidecars := sidecars, running := running)
    case Publish(id, managed, database) => WithTx(s, id, Tx(OBSERVING, false, SnapshotOf(s.targets, managed), database))
    case Activate(id) => s.(active := Some(id))
    case RecordDatabase(id, database) => WithTx(s, id, s.txs[id].(database := database))
    case WriteState(id, to) => WithTx(s, id, s.txs[id].(state := to, prepared := s.txs[id].prepared || to == PREPARED))
    case PublishPending(id) => s.(pending := Some(id))
    case ClearActive => s.(active := None)
    case ClearPending => s.(pending := None)
    case Forget(ids) => s.(txs := s.txs - ids)
    case Stop => s.(running := false)
    case Start => s.(running := true)
    case RemoveSidecar(x) => s.(sidecars := s.sidecars - {x})
    case RestoreMain =>
      var database := s.txs[s.active.value].database;
      s.(main := Saved(database))
    case RestoreTarget(t) => s.(targets := Put(s.targets, t, s.txs[s.active.value].snapshot[t]))
  }

  // ---- invariant ----------------------------------------------------------------------------

  ghost predicate TxOK(s: State, id: Id)
    requires id in s.txs
  {
    var tx := s.txs[id];
    && (tx.state == HEALTHY || Recoverable(tx.state) ==> s.active == Some(id) && tx.prepared && !tx.database.Planned?)
    && (tx.state == OBSERVING ==> !tx.prepared)
    && (tx.state == COMMITTED ==> tx.prepared)
    && (s.active == Some(id) && tx.state == OBSERVING ==> TargetsRestored(s, tx))
    && (s.active == Some(id) && tx.state == RESTORED ==>
         TargetsRestored(s, tx) && (tx.prepared ==> !s.running && DatabaseRestored(s, tx)))
  }

  /** The markers name transactions that exist; services are pending only for finished ones; and a
      restored main database never has a sidecar beside it. */
  ghost predicate Inv(s: State) {
    && (s.active.Some? ==> s.active.value in s.txs)
    && (s.pending.Some? ==> s.pending.value in s.txs && Final(s.txs[s.pending.value].state))
    && (s.active.Some? && s.pending.Some? ==> s.active == s.pending)
    && (s.main.Some? && s.main.value.restored ==> s.sidecars == map[])
    && (forall id | id in s.txs :: TxOK(s, id))
  }

  /** What the world does: administrators, the application, the installer's own mutation. */
  predicate OfTheWorld(step: Step) { step.Edit? || step.Work? || step.Mutate? }

  predicate PendingIsFinal(s: State) { s.pending.Some? && s.pending.value in s.txs && Final(s.txs[s.pending.value].state) }

  /** The active transaction is finished; if it undid a mutation, every file is its snapshot. */
  predicate ActiveIsSettled(s: State) {
    HasActive(s) &&
    var tx := s.txs[s.active.value];
    Final(tx.state) && (tx.state == RESTORED ==> TargetsRestored(s, tx) && (tx.prepared ==> DatabaseRestored(s, tx)))
  }

  /** The order of recovery between two consecutive moments. A target changes only while stopped and
      restoring, after the database; the main file only while stopped, restoring and without
      sidecars; the application starts only with the active marker clear and a finished transaction
      pending; and the marker is cleared only when everything is settled. */
  predicate InOrder(s: State, s': State) {
    && (s'.targets != s.targets ==>
         !s.running && ActiveIn(s, {RESTORING}) && DatabaseRestored(s, s.txs[s.active.value])
         && s' == s.(targets := s'.targets))
    && (s'.main != s.main ==>
         !s.running && ActiveIn(s, {RESTORING}) && s.sidecars == map[]
         && s' == s.(main := Saved(s.txs[s.active.value].database)))
    && (s'.sidecars != s.sidecars ==>
         !s.running && ActiveIn(s, {RESTORING}) && s'.sidecars.Keys <= s.sidecars.Keys && s' == s.(sidecars := s'.sidecars))
    && (s'.running && !s.running ==> s.active.None? && PendingIsFinal(s))
    && (s.active.Some? && s'.active != s.active ==> s'.active.None? && ActiveIsSettled(s))
    && (forall id | id in s.txs && s.txs[id].state != OBSERVING && id in s'.txs ::
         s'.txs[id] == s.txs[id].(state := s'.txs[id].state) && s'.txs[id].state != OBSERVING)
    && (s.active.Some? ==> s.txs.Keys <= s'.txs.Keys)
  }

  /** The application writes its database while it runs. */
  predicate ApplicationActs(s: State, s': State) { s.running && s' == s.(main := s'.main, sidecars := s'.sidecars) }

  /** Every step of the program keeps the order; what the world does is not the program's to order. */
  predicate Disciplined(s: State, step: Step) {
    Enabled(s, step) && (OfTheWorld(step) || InOrder(s, After(s, step)))
  }

  /** The world's own changes, which the markers keep away from anything still to be restored. */
  lemma WorldKeepsInv(s: State, step: Step)
    requires Inv(s) && Disciplined(s, step) && (step.Edit? || step.Work? || step.Mutate?)
    ensures Inv(After(s, step))
  {
    hide InOrder;
    var s' := After(s, step);
    forall id | id in s'.txs ensures TxOK(s', id) {
      assert id in s.txs ==> TxOK(s, id);
    }
  }

  lemma PublishKeepsInv(s: State, step: Step)
    requires Inv(s) && Disciplined(s, step) && (step.Publish? || step.RecordDatabase?)
    ensures Inv(After(s, step))
  {
    hide InOrder, DatabaseRestored;
    var s' := After(s, step);
    forall id | id in s'.txs ensures TxOK(s', id) {
      assert id in s.txs ==> TxOK(s, id);
    }
  }

  lemma WriteStateKeepsInv(s: State, step: Step)
    requires Inv(s) && Disciplined(s, step) && (step.WriteState?)
    ensures Inv(After(s, step))
  {
    hide InOrder;
    var s' := After(s, step);
    forall id | id in s'.txs ensures TxOK(s', id) {
      assert id in s.txs ==> TxOK(s, id);
    }
  }

  lemma MarkersKeepInv(s: State, step: Step)
    requires Inv(s) && Disciplined(s, step) && (step.Activate? || step.PublishPending? || step.ClearActive? || step.ClearPending?)
    ensures Inv(After(s, step))
  {
    var s' := After(s, step);
    forall id | id in s'.txs ensures TxOK(s', id) {
      assert id in s.txs ==> TxOK(s, id);
    }
  }

  lemma ForgetKeepsInv(s: State, step: Step)
    requires Inv(s) && Disciplined(s, step) && (step.Forget?)
    ensures Inv(After(s, step))
  {
    hide InOrder, DatabaseRestored, TargetsRestored;
    var s' := After(s, step);
    forall id | id in s'.txs ensures TxOK(s', id) {
      assert id in s.txs ==> TxOK(s, id);
    }
  }

  lemma UnitsKeepInv(s: State, step: Step)
    requires Inv(s) && Disciplined(s, step) && (step.Stop? || step.Start?)
    ensures Inv(After(s, step))
  {
    var s' := After(s, step);
    forall id | id in s'.txs ensures TxOK(s', id) {
      assert id in s.txs ==> TxOK(s, id);
    }
  }

  lemma SidecarKeepsInv(s: State, step: Step)
    requires Inv(s) && Disciplined(s, step) && (step.RemoveSidecar?)
    ensures Inv(After(s, step))
  {
    var s' := After(s, step);
    forall id | id in s'.txs ensures TxOK(s', id) {
      assert id in s.txs ==> TxOK(s, id);
    }
  }

  /** What recovery restores, and only while it restores. */
  lemma FilesKeepInv(s: State, step: Step)
    requires Inv(s) && Disciplined(s, step) && (step.RestoreMain? || step.RestoreTarget?)
    ensures Inv(After(s, step))
  {
    var s' := After(s, step);
    forall id | id in s'.txs ensures TxOK(s', id) {
      assert id in s.txs ==> TxOK(s, id);
    }
  }

  lemma StepKeepsInv(s: State, step: Step)
    requires Inv(s) && Disciplined(s, step)
    ensures Inv(After(s, step))
  {
    hide Inv, Enabled, After, Disciplined;
    match step
    case Edit(_) => WorldKeepsInv(s, step);
    case Work(_, _) => WorldKeepsInv(s, step);
    case Mutate(_, _, _, _) => WorldKeepsInv(s, step);
    case Publish(_, _, _) => PublishKeepsInv(s, step);
    case RecordDatabase(_, _) => PublishKeepsInv(s, step);
    case WriteState(_, _) => WriteStateKeepsInv(s, step);
    case Activate(_) => MarkersKeepInv(s, step);
    case PublishPending(_) => MarkersKeepInv(s, step);
    case ClearActive => MarkersKeepInv(s, step);
    case ClearPending => MarkersKeepInv(s, step);
    case Forget(_) => ForgetKeepsInv(s, step);
    case Stop => UnitsKeepInv(s, step);
    case Start => UnitsKeepInv(s, step);
    case RemoveSidecar(_) => SidecarKeepsInv(s, step);
    case RestoreMain => FilesKeepInv(s, step);
    case RestoreTarget(_) => FilesKeepInv(s, step);
  }

  ghost predicate Run(states: seq<State>, steps: seq<Step>) {
    && |states| == |steps| + 1
    && forall k | 0 <= k < |steps| :: Disciplined(states[k], steps[k]) && states[k + 1] == After(states[k], steps[k])
  }

  /** Recovery may start after any prefix of any run: the invariant holds at every moment. */
  lemma {:induction false} RunKeepsInv(states: seq<State>, steps: seq<Step>, k: nat)
    requires Run(states, steps) && Inv(states[0]) && k < |states|
    ensures Inv(states[k])
  {
    hide Inv, After, Disciplined;
    if k > 0 {
      RunKeepsInv(states, steps, k - 1);
      StepKeepsInv(states[k - 1], steps[k - 1]);
    }
  }

  // ---- what runs never do -------------------------------------------------------------------

  predicate Keeping(state: TxState) { state == HEALTHY || state == COMMITTED }

  predicate Undoing(state: TxState) { state == RESTORING || state == RECOVERY_REQUIRED || state == RESTORED }

  /** The decision is one-way: kept stays kept, undone stays undone. */
  lemma StepKeepsDecision(s: State, step: Step, id: Id)
    requires Inv(s) && Disciplined(s, step) && id in s.txs && id in After(s, step).txs
    ensures Keeping(s.txs[id].state) ==> Keeping(After(s, step).txs[id].state)
    ensures Undoing(s.txs[id].state) ==> Undoing(After(s, step).txs[id].state)
  {
    hide InOrder, DatabaseRestored, TargetsRestored;
  }

  lemma {:induction false} DecisionsAreFinal(states: seq<State>, steps: seq<Step>, i: nat, j: nat, id: Id)
    requires Run(states, steps) && Inv(states[0]) && i <= j < |states|
    requires forall k | i <= k <= j :: id in states[k].txs
    ensures Keeping(states[i].txs[id].state) ==> Keeping(states[j].txs[id].state)
    ensures Undoing(states[i].txs[id].state) ==> Undoing(states[j].txs[id].state)
  {
    hide Inv, After, Disciplined, Keeping, Undoing;
    if i < j {
      DecisionsAreFinal(states, steps, i, j - 1, id);
      RunKeepsInv(states, steps, j - 1);
      assert id in states[j - 1].txs && id in states[j].txs;
      StepKeepsDecision(states[j - 1], steps[j - 1], id);
    }
  }

  /** HEALTHY is never reached after RESTORING, and from HEALTHY on recovery rewrites nothing. */
  lemma HealthyIsNeverUndone(states: seq<State>, steps: seq<Step>, i: nat, j: nat, id: Id)
    requires Run(states, steps) && Inv(states[0]) && i <= j < |steps|
    requires forall k | i <= k <= j :: id in states[k].txs
    ensures Undoing(states[i].txs[id].state) ==> !Keeping(states[j].txs[id].state)
    ensures Keeping(states[i].txs[id].state) && states[j].active == Some(id) ==>
              && !(steps[j].WriteState? && Undoing(steps[j].state))
              && (OfTheWorld(steps[j]) || (states[j + 1].targets == states[j].targets && states[j + 1].main == states[j].main
                                           && states[j + 1].sidecars == states[j].sidecars))
  {
    DecisionsAreFinal(states, steps, i, j, id);
    assert Disciplined(states[j], steps[j]);
  }

  // ---- the order at every moment --------------------------------------------------------------

  /** One moment of recovery: in order or the application's, and no transaction begins. */
  predicate TidyMoment(s: State, s': State) {
    (InOrder(s, s') || ApplicationActs(s, s')) && (s'.active.Some? ==> s.active == s'.active)
  }

  /** From the `from`-th recorded moment on everything was done in order. */
  ghost predicate Tidy(states: seq<State>, from: nat) {
    forall k | from <= k < |states| && k > 0 :: TidyMoment(states[k - 1], states[k])
  }

  /** Between two moments no target changes, and the database only by the application's own hand. */
  predicate SparedMoment(s: State, s': State) {
    s'.targets == s.targets && ((s'.main == s.main && s'.sidecars == s.sidecars) || ApplicationActs(s, s'))
  }

  /** From the `from`-th recorded moment on recovery has written none of the files. */
  ghost predicate Spared(states: seq<State>, from: nat) {
    forall k | from <= k < |states| && k > 0 :: SparedMoment(states[k - 1], states[k])
  }

  /** The database was its snapshot at some moment since the one before the `n`-th, and from then on
      nobody but the application, once started, has written it. */
  ghost predicate HandedOver(states: seq<State>, n: nat, tx: Tx) {
    exists c: nat :: n <= c + 1 && c < |states| && DatabaseRestored(states[c], tx) && Spared(states, c + 1)
  }

  /** No moment shows the old release with the new database: from the first moment at which a target
      differs from how recovery found it, the database is its snapshot, and nothing runs. */
  ghost predicate OldReleaseOldDatabase(start: State, s: State, id: Id) {
    s.active == Some(id) ==>
      && id in s.txs && s.txs[id].state != OBSERVING
      && (s.targets != start.targets ==> DatabaseRestored(s, s.txs[id]) && !s.running)
  }

  /** So it is from the `n`-th moment on, whichever of them a crash picks. */
  ghost predicate NeverMixed(states: seq<State>, n: nat, start: State, id: Id) {
    forall k | n <= k < |states| :: OldReleaseOldDatabase(start, states[k], id)
  }

  lemma OrderIsKept(start: State, s: State, s': State, id: Id)
    requires TidyMoment(s, s') && OldReleaseOldDatabase(start, s, id)
    ensures OldReleaseOldDatabase(start, s', id)
  {
  }

  /** However many crashes cut it off, recovery never leaves the old release beside the new database,
      the combination that no migration repairs. */
  lemma {:induction false} OldReleaseNeverMeetsNewDatabase(states: seq<State>, from: nat, k: nat, id: Id)
    requires from <= k < |states| && Tidy(states, from + 1)
    requires states[from].active == Some(id) && id in states[from].txs && states[from].txs[id].state != OBSERVING
    ensures OldReleaseOldDatabase(states[from], states[k], id)
  {
    hide TidyMoment, DatabaseRestored;
    if from < k {
      OldReleaseNeverMeetsNewDatabase(states, from, k - 1, id);
      OrderIsKept(states[from], states[k - 1], states[k], id);
    }
  }

  /** A restored main file has no sidecar beside it, and means what the backup meant, at every moment
      of every run. */
  lemma RestoredMeansTheBackup(states: seq<State>, steps: seq<Step>, k: nat, id: Id)
    requires Run(states, steps) && Inv(states[0]) && k < |states| && states[k].active == Some(id) && id in states[k].txs
    requires states[k].txs[id].database.Backup? && states[k].txs[id].prepared && states[k].txs[id].state == RESTORED
    ensures states[k].main.Some?
    ensures Meaning(states[k].main.value.data, states[k].sidecars) == states[k].txs[id].database.data
  {
    RunKeepsInv(states, steps, k);
    assert TxOK(states[k], id);
  }
}
