/** The installer transaction in the form of its source. Every durable effect is recorded as a step
    of `InstallModel`, so a method may be cut off after any of them. */
module InstallTransactions {

  import opened Wrappers
  import opened InstallModel

  /** `Refused` is an answer about the journal; `Unavailable` is the host failing. */
  datatype Error = Refused | Unavailable

  class InstallTransaction {
    var active: Option<Id>
    var pending: Option<Id>
    var txs: map<Id, Tx>
    var targets: map<Target, Content>
    var main: Option<Main>
    var sidecars: map<Sidecar, Content>
    var running: bool
    ghost var states: seq<State>
    ghost var steps: seq<Step>

    function Snap(): State
      reads this
    {
      State(active, pending, txs, targets, main, sidecars, running)
    }

    /** The host is in a state that some run reached. */
    ghost predicate Valid()
      reads this
    {
      Run(states, steps) && |states| > 0 && Last(states) == Snap() && Inv(Snap())
    }

    constructor (targets: map<Target, Content>, main: Option<Data>, sidecars: map<Sidecar, Content>, running: bool)
      ensures Valid() && active.None? && pending.None? && txs == map[]
    {
      active, pending, txs := None, None, map[];
      this.targets, this.main, this.sidecars, this.running := targets, Live(main), sidecars, running;
      states := [State(None, None, map[], targets, Live(main), sidecars, running)];
      steps := [];
    }

    /** Append the effect just performed to the history. */
    ghost method Record(step: Step)
      requires Run(states, steps) && Inv(Last(states)) && Disciplined(Last(states), step) && Snap() == After(Last(states), step)
      modifies this`states, this`steps
      ensures Valid() && states == old(states) + [Snap()] && steps == old(steps) + [step]
    {
      hide Inv, After, Disciplined;
      StepKeepsInv(Last(states), step);
      states := states + [Snap()];
      steps := steps + [step];
    }

    /** The application, while it may be running. */
    method World()
      requires Valid()
      modifies this
      ensures Tidy(states, old(|states|)) && Spared(states, old(|states|))
      ensures Valid() && old(states) <= states
      ensures !old(running) ==> Snap() == old(Snap())
      ensures Snap() == old(Snap()).(main := main, sidecars := sidecars)
    {
      hide Inv;
      if running {
        var written: Option<Data> := *;
        var left: map<Sidecar, Content> := *;
        main, sidecars := Live(written), left;
        Record(Work(written, left));
      }
    }

    /** Where a transaction stands. */
    ghost predicate Stands(id: Id, state: TxState)
      reads this
    {
      Valid() && active == Some(id) && id in txs && txs[id].state == state
    }

    /** Atomic replacement of the state file. */
    method WriteState(id: Id, to: TxState) returns (r: Result<(), Error>)
      requires Valid() && id in txs && MayWrite(Snap(), id, to)
      modifies this
      ensures Tidy(states, old(|states|)) && Spared(states, old(|states|))
      ensures Valid() && old(states) <= states
      ensures r.Ok? ==> Snap() == WithTx(old(Snap()), id, old(txs[id]).(state := to, prepared := old(txs[id]).prepared || to == PREPARED))
      ensures r.Err? ==> Snap() == old(Snap()) && r == Err(Unavailable)
    {
      hide Inv;
      if * {
        return Err(Unavailable);
      }
      txs := txs[id := txs[id].(state := to, prepared := txs[id].prepared || to == PREPARED)];
      Record(Step.WriteState(id, to));
      return Ok(());
    }

    method Begin(id: Id, managed: set<Target>, withDatabase: bool) returns (r: Result<(), Error>)
      requires Valid()
      modifies this
      ensures Valid() && old(states) <= states
      ensures r == Err(Refused) <==> old(active).Some? || old(pending).Some? || id in old(txs)
      ensures r.Err? ==> active == old(active) && targets == old(targets)
      ensures r.Ok? ==> Stands(id, OBSERVING) && txs[id].snapshot == SnapshotOf(old(targets), managed)
                        && Snap() == old(Snap()).(active := Some(id), txs := old(txs)[id := txs[id]])
    {
      hide Inv, Run;
      if active.Some? || pending.Some? {
        return Err(Refused);
      }
      if id in txs {
        return Err(Refused);
      }
      if * {
        return Err(Unavailable);
      }
      var database := if withDatabase then Planned else NotManaged;
      txs := txs[id := Tx(OBSERVING, false, SnapshotOf(targets, managed), database)];
      Record(Step.Publish(id, managed, database));
      if * {
        return Err(Unavailable);
      }
      active := Some(id);
      Record(Step.Activate(id));
      return Ok(());
    }

    /** The backup of the database, taken before anything is changed. */
    method SnapshotDatabase() returns (r: Result<Database, Error>)
      ensures r.Ok? ==> r.value.WasAbsent? || r.value.Backup?
      ensures r.Ok? && r.value.WasAbsent? ==> main.None?
      ensures r.Ok? && r.value.Backup? ==> main.Some? && r.value.data == Meaning(main.value.data, sidecars)
      ensures r == Err(Refused) <==> main.None? && (Wal in sidecars || Shm in sidecars)
    {
      if main.None? {
        if Wal in sidecars || Shm in sidecars {
          return Err(Refused);
        }
        return Ok(WasAbsent);
      }
      if * {
        return Err(Unavailable);
      }
      // the backup reads through the sidecars; without any it is the main file
      var data := main.value.data;
      if sidecars != map[] {
        data := Merged(data, sidecars);
      }
      return Ok(Backup(data));
    }

    method PrepareMutation() returns (r: Result<(), Error>)
      requires Valid()
      modifies this
      ensures Valid() && old(states) <= states
      ensures r.Ok? ==> old(active).Some? && old(active).value in old(txs) && Stands(old(active).value, PREPARED)
      ensures r.Ok? ==> txs[old(active).value].database
                        == (if old(txs[active.value].database).NotManaged? then NotManaged
                            else if main.None? then WasAbsent else Backup(Meaning(main.value.data, sidecars)))
      ensures targets == old(targets) && main == old(main) && sidecars == old(sidecars) && active == old(active)
    {
      hide TxOK;
      if active.None? || txs[active.value].state != OBSERVING {
        return Err(Refused);
      }
      var id := active.value;
      if !txs[id].database.NotManaged? {
        if !txs[id].database.Planned? {
          return Err(Refused);
        }
        var database := SnapshotDatabase();
        if database.Err? {
          return Err(database.error);
        }
        if * {
          return Err(Unavailable);
        }
        txs := txs[id := txs[id].(database := database.value)];
        Record(Step.RecordDatabase(id, database.value));
      }
      r := WriteState(id, PREPARED);
    }

    /** The installer's own changes, and whatever it runs to check them. */
    method Mutation()
      requires Valid() && ActiveIn(Snap(), {PREPARED})
      modifies this
      ensures Valid() && old(states) <= states && active == old(active) && txs == old(txs) && pending == old(pending)
    {
      hide Inv;
      var files: map<Target, Content> := *;
      var written: Option<Data> := *;
      var left: map<Sidecar, Content> := *;
      var up: bool := *;
      targets, main, sidecars, running := files, Live(written), left, up;
      Record(Mutate(files, written, left, up));
    }

    method Healthy() returns (r: Result<(), Error>)
      requires Valid()
      modifies this
      ensures Tidy(states, old(|states|)) && Spared(states, old(|states|))
      ensures Valid() && old(states) <= states
      ensures r.Ok? <==> old(active).Some? && Stands(old(active).value, HEALTHY) && old(txs[active.value].state) == PREPARED
      ensures r == Err(Refused) <==> !ActiveIn(old(Snap()), {PREPARED})
    {
      hide TxOK;
      if active.None? || txs[active.value].state != PREPARED {
        return Err(Refused);
      }
      r := WriteState(active.value, HEALTHY);
    }

    method StopRuntime() returns (r: Result<(), Error>)
      requires Valid()
      modifies this
      ensures Tidy(states, old(|states|)) && Spared(states, old(|states|))
      ensures Valid() && old(states) <= states
      ensures r.Ok? ==> Snap() == old(Snap()).(running := false)
      ensures r.Err? ==> Snap() == old(Snap()) && r == Err(Unavailable)
    {
      hide Inv;
      if * {
        return Err(Unavailable);
      }
      running := false;
      Record(Stop);
      return Ok(());
    }

    method StartUnits() returns (r: Result<(), Error>)
      requires Valid() && active.None? && pending.Some?
      modifies this
      ensures Tidy(states, old(|states|)) && Spared(states, old(|states|))
      ensures Valid() && old(states) <= states
      ensures r.Ok? ==> Snap() == old(Snap()).(running := running)
      ensures r.Err? ==> Snap() == old(Snap()) && r == Err(Unavailable)
    {
      MarkersAreSettled(Snap());
      hide Inv;
      if * {
        return Err(Unavailable);
      }
      running := true;
      Record(Start);
      return Ok(());
    }

    method PublishPendingServices(id: Id) returns (r: Result<(), Error>)
      requires Valid() && id in txs && Final(txs[id].state) && (active == Some(id) || active.None?) && (pending.None? || pending == Some(id))
      modifies this
      ensures Tidy(states, old(|states|)) && Spared(states, old(|states|))
      ensures Valid() && old(states) <= states
      ensures r.Ok? ==> Snap() == old(Snap()).(pending := Some(id))
      ensures r.Err? ==> Snap() == old(Snap()) && r == Err(Unavailable)
    {
      hide Inv;
      if pending.Some? && pending.value != id {
        return Err(Refused);
      }
      if pending.None? {
        if * {
          return Err(Unavailable);
        }
        pending := Some(id);
        Record(PublishPending(id));
      }
      return Ok(());
    }

    method ClearActiveMarker(id: Id) returns (r: Result<(), Error>)
      requires Valid() && active == pending == Some(id)
      modifies this
      ensures Tidy(states, old(|states|)) && Spared(states, old(|states|))
      ensures Valid() && old(states) <= states
      ensures r.Ok? ==> Snap() == old(Snap()).(active := None)
      ensures r.Err? ==> Snap() == old(Snap()) && r == Err(Unavailable)
    {
      MarkersAreSettled(Snap());
      hide Inv;
      if * {
        return Err(Unavailable);
      }
      active := None;
      Record(ClearActive);
      return Ok(());
    }

    method ClearPendingServices(id: Id) returns (r: Result<(), Error>)
      requires Valid() && active.None? && pending == Some(id)
      modifies this
      ensures Tidy(states, old(|states|)) && Spared(states, old(|states|))
      ensures Valid() && old(states) <= states
      ensures r.Ok? ==> Snap() == old(Snap()).(pending := None)
      ensures r.Err? ==> Snap() == old(Snap()) && r == Err(Unavailable)
    {
      hide Inv;
      if * {
        return Err(Unavailable);
      }
      pending := None;
      Record(ClearPending);
      return Ok(());
    }

    /** Pending marker, active marker, units, pending marker: in that order, from any crash point. */
    method FinishServices(id: Id) returns (r: Result<(), Error>)
      requires Valid() && id in txs && Final(txs[id].state) && (active == Some(id) || active.None?) && (pending.None? || pending == Some(id))
      modifies this
      ensures Tidy(states, old(|states|)) && Spared(states, old(|states|))
      ensures Valid() && old(states) <= states
      ensures txs == old(txs) && targets == old(targets)
      ensures r.Ok? ==> active.None? && pending.None?
      ensures r.Err? ==> r == Err(Unavailable)
    {
      hide Inv, Run, Tidy, Spared, TidyMoment, InOrder, ApplicationActs;
      ghost var n := |states|;
      World();
      ghost var s0 := states;
      r := PublishPendingServices(id);
      CalmGoesOn(s0, states, n);
      if r.Err? {
        return;
      }
      ghost var s1 := states;
      if active == Some(id) {
        r := ClearActiveMarker(id);
        CalmGoesOn(s1, states, n);
        if r.Err? {
          return;
        }
      }
      ghost var s2 := states;
      r := StartUnits();
      CalmGoesOn(s2, states, n);
      if r.Err? {
        return;
      }
      ghost var s3 := states;
      World();
      CalmGoesOn(s3, states, n);
      ghost var s4 := states;
      r := ClearPendingServices(id);
      CalmGoesOn(s4, states, n);
    }

    /** Retention: finished transactions only, and never the newest. */
    method Prune(newest: Id)
      requires Valid() && active.None? && pending.None?
      modifies this
      ensures Tidy(states, old(|states|)) && Spared(states, old(|states|))
      ensures Valid() && old(states) <= states
      ensures Snap() == old(Snap()).(txs := txs) && forall id | id in txs :: id in old(txs) && txs[id] == old(txs)[id]
      ensures forall id | id in old(txs) && (id == newest || !Final(old(txs)[id].state)) :: id in txs
    {
      hide Inv;
      var chosen: set<Id> := *;
      var obsolete := set id | id in txs && id in chosen && id != newest && Final(txs[id].state);
      txs := txs - obsolete;
      Record(Forget(obsolete));
    }

    method Commit() returns (r: Result<(), Error>)
      requires Valid()
      modifies this
      ensures Tidy(states, old(|states|)) && Spared(states, old(|states|))
      ensures Valid() && old(states) <= states
      ensures r == Err(Refused) <==> !ActiveIn(old(Snap()), {HEALTHY})
      ensures r.Ok? ==> active.None? && pending.None? && old(active).value in txs && txs[old(active).value].state == COMMITTED
      ensures targets == old(targets)
    {
      hide TxOK;
      if active.None? || txs[active.value].state != HEALTHY {
        return Err(Refused);
      }
      var id := active.value;
      r := FinishHealthy(id);
    }

    /** From HEALTHY: stop, commit, start again. Files are left alone. */
    method FinishHealthy(id: Id) returns (r: Result<(), Error>)
      requires Stands(id, HEALTHY)
      modifies this
      ensures Tidy(states, old(|states|)) && Spared(states, old(|states|))
      ensures Valid() && old(states) <= states
      ensures targets == old(targets)
      ensures r.Ok? ==> active.None? && pending.None? && id in txs && txs[id].state == COMMITTED
      ensures r.Err? ==> r == Err(Unavailable) && id in txs && Keeping(txs[id].state)
    {
      NoneIsPending(Snap(), id);
      hide Inv, Run, Tidy, Spared, TidyMoment, InOrder, ApplicationActs;
      ghost var n := |states|;
      World();
      ghost var s0 := states;
      r := StopRuntime();
      CalmGoesOn(s0, states, n);
      if r.Err? {
        return;
      }
      ghost var s1 := states;
      r := WriteState(id, COMMITTED);
      CalmGoesOn(s1, states, n);
      if r.Err? {
        return;
      }
      ghost var s2 := states;
      r := FinishHealthyServices(id);
      CalmGoesOn(s2, states, n);
    }

    method FinishHealthyServices(id: Id) returns (r: Result<(), Error>)
      requires Valid() && id in txs && txs[id].state == COMMITTED && (active == Some(id) || active.None?) && (pending.None? || pending == Some(id))
      modifies this
      ensures Tidy(states, old(|states|)) && Spared(states, old(|states|))
      ensures Valid() && old(states) <= states
      ensures targets == old(targets)
      ensures id in txs && txs[id].state == COMMITTED
      ensures r.Ok? ==> active.None? && pending.None?
      ensures r.Err? ==> r == Err(Unavailable)
    {
      hide Inv, Run, Tidy, Spared, TidyMoment, InOrder, ApplicationActs;
      ghost var n := |states|;
      r := FinishServices(id);
      if r.Ok? {
        ghost var s0 := states;
        Prune(id);
        CalmGoesOn(s0, states, n);
        ghost var s1 := states;
        World();
        CalmGoesOn(s1, states, n);
      }
    }

    method RemoveDatabaseSidecar(id: Id, suffix: Sidecar) returns (r: Result<(), Error>)
      requires Stands(id, RESTORING) && !running
      modifies this
      ensures Tidy(states, old(|states|))
      ensures Valid() && old(states) <= states
      ensures Snap() == old(Snap()).(sidecars := if r.Ok? then old(sidecars) - {suffix} else old(sidecars))
      ensures r.Err? ==> r == Err(Unavailable)
    {
      hide Inv;
      if suffix in sidecars {
        if * {
          return Err(Unavailable);
        }
        sidecars := sidecars - {suffix};
        Record(RemoveSidecar(suffix));
      } else {
        assert sidecars - {suffix} == sidecars;
      }
      return Ok(());
    }

    method RemoveDatabaseSidecars(id: Id) returns (r: Result<(), Error>)
      requires Stands(id, RESTORING) && !running
      modifies this
      ensures Tidy(states, old(|states|))
      ensures Valid() && old(states) <= states
      ensures Snap() == old(Snap()).(sidecars := sidecars)
      ensures r.Ok? ==> sidecars == map[]
      ensures r.Err? ==> r == Err(Unavailable)
    {
      hide Inv, Run, Tidy, TidyMoment;
      ghost var n := |states|;
      NothingYet(states);
      var suffixes := [Wal, Shm, Journal];
      for k := 0 to 3
        invariant Stands(id, RESTORING) && !running && old(states) <= states && Tidy(states, n)
        invariant Snap() == old(Snap()).(sidecars := sidecars)
        invariant forall j | 0 <= j < k :: suffixes[j] !in sidecars
      {
        ghost var before := states;
        r := RemoveDatabaseSidecar(id, suffixes[k]);
        TidyGoesOn(before, states, n);
        if r.Err? {
          return;
        }
      }
      assert forall x | x in sidecars :: x == suffixes[0] || x == suffixes[1] || x == suffixes[2];
      return Ok(());
    }

    /** Sidecars first, then the main file, so that a restored main file never has a stale one. */
    method RestoreDatabase(id: Id) returns (r: Result<(), Error>)
      requires Stands(id, RESTORING) && !running && !txs[id].database.Planned?
      modifies this
      ensures Tidy(states, old(|states|))
      ensures Valid() && old(states) <= states
      ensures Snap() == old(Snap()).(sidecars := sidecars, main := main)
      ensures r.Ok? ==> DatabaseRestored(Snap(), txs[id])
      ensures r.Err? ==> r == Err(Unavailable)
    {
      hide Inv;
      var database := txs[id].database;
      if database.NotManaged? {
        return Ok(());
      }
      r := RemoveDatabaseSidecars(id);
      if r.Err? {
        return;
      }
      if * {
        return Err(Unavailable);
      }
      main := Saved(database);
      Record(RestoreMain);
    }

    method RestoreEntry(id: Id, t: Target) returns (r: Result<(), Error>)
      requires Stands(id, RESTORING) && !running && DatabaseRestored(Snap(), txs[id]) && t in txs[id].snapshot
      modifies this
      ensures Tidy(states, old(|states|))
      ensures Valid() && old(states) <= states && id in txs && DatabaseRestored(Snap(), txs[id])
      ensures Snap() == old(Snap()).(targets := if r.Ok? then Put(old(targets), t, old(txs[id]).snapshot[t]) else old(targets))
      ensures r.Err? ==> r == Err(Unavailable)
    {
      hide Inv;
      if * {
        return Err(Unavailable);
      }
      targets := Put(targets, t, txs[id].snapshot[t]);
      Record(RestoreTarget(t));
      return Ok(());
    }

    method Restore(id: Id, order: seq<Target>) returns (r: Result<(), Error>)
      requires Stands(id, RESTORING) && !running && DatabaseRestored(Snap(), txs[id])
      requires forall t :: t in order <==> t in txs[id].snapshot
      modifies this
      ensures Tidy(states, old(|states|))
      ensures Valid() && old(states) <= states
      ensures Snap() == old(Snap()).(targets := targets)
      ensures r.Ok? ==> TargetsRestored(Snap(), txs[id])
      ensures r.Err? ==> r == Err(Unavailable)
    {
      hide Inv, Run, Tidy, TidyMoment, DatabaseRestored;
      ghost var n := |states|;
      NothingYet(states);
      for k := 0 to |order|
        invariant Stands(id, RESTORING) && !running && DatabaseRestored(Snap(), txs[id]) && old(states) <= states && Tidy(states, n)
        invariant Snap() == old(Snap()).(targets := targets)
        invariant forall j | 0 <= j < k :: Look(targets, order[j]) == txs[id].snapshot[order[j]]
      {
        ghost var before := states;
        r := RestoreEntry(id, order[k]);
        TidyGoesOn(before, states, n);
        if r.Err? {
          return;
        }
      }
      return Ok(());
    }

    /** The manifest's entries in some order. */
    method Entries(tx: Tx) returns (order: seq<Target>)
      ensures forall t :: t in order <==> t in tx.snapshot
    {
      order := [];
      var left := tx.snapshot.Keys;
      while left != {}
        invariant left <= tx.snapshot.Keys && forall t :: t in order <==> t in tx.snapshot && t !in left
        decreases |left|
      {
        var t :| t in left;
        left, order := left - {t}, order + [t];
      }
    }

    /** The restoration proper: runtime, database, files. */
    method UndoFiles(id: Id) returns (r: Result<(), Error>)
      requires Stands(id, RESTORING) && !txs[id].database.Planned?
      modifies this
      ensures Tidy(states, old(|states|))
      ensures Stands(id, RESTORING) && old(states) <= states && txs == old(txs) && pending == old(pending)
      ensures r.Ok? ==> !running && TargetsRestored(Snap(), txs[id]) && DatabaseRestored(Snap(), txs[id])
      ensures r.Err? ==> r == Err(Unavailable)
    {
      hide Inv, TargetsRestored;
      World();
      r := StopRuntime();
      if r.Err? {
        return;
      }
      r := RestoreDatabase(id);
      if r.Err? {
        return;
      }
      var order := Entries(txs[id]);
      ghost var before := Snap();
      r := Restore(id, order);
      DatabaseStaysRestored(before, Snap(), txs[id]);
    }

    /** The guarded part of an undo: say so, then restore. */
    method TryUndo(id: Id) returns (r: Result<(), Error>)
      requires Valid() && active == Some(id) && id in txs && Recoverable(txs[id].state)
      modifies this
      ensures Tidy(states, old(|states|))
      ensures Valid() && old(states) <= states && active == old(active) && pending == old(pending)
      ensures id in txs && txs[id] == old(txs[id]).(state := txs[id].state)
      ensures r.Ok? ==> txs[id].state == RESTORING && !running && TargetsRestored(Snap(), txs[id]) && DatabaseRestored(Snap(), txs[id])
      ensures r.Err? ==> r == Err(Unavailable) && Recoverable(txs[id].state)
    {
      PreparedHasEntry(Snap(), id);
      hide Inv, Run, Tidy, TidyMoment, TargetsRestored, DatabaseRestored;
      r := WriteState(id, RESTORING);
      if r.Ok? {
        ghost var first := states;
        r := UndoFiles(id);
        TidyGoesOn(first, states, old(|states|));
      }
    }

    /** Undo a mutation. On a failure the state says that recovery is required, if it can still be
        written. */
    method Undo(id: Id) returns (r: Result<(), Error>)
      requires Valid() && active == Some(id) && id in txs && Recoverable(txs[id].state)
      modifies this
      ensures Tidy(states, old(|states|))
      ensures NeverMixed(states, old(|states|), old(Snap()), id)
      ensures Valid() && old(states) <= states && active == old(active) && pending == old(pending)
      ensures id in txs && txs[id] == old(txs[id]).(state := txs[id].state)
      ensures r.Ok? ==> txs[id].state == RESTORED && TargetsRestored(Snap(), txs[id]) && DatabaseRestored(Snap(), txs[id])
      ensures r.Err? ==> r == Err(Unavailable) && Recoverable(txs[id].state)
    {
      hide Inv, Run, Tidy, TidyMoment, InOrder, ApplicationActs, NeverMixed, OldReleaseOldDatabase;
      r := TryUndo(id);
      ghost var second := states;
      if r.Err? {
        var recorded := WriteState(id, RECOVERY_REQUIRED);
      } else {
        r := WriteState(id, RESTORED);
      }
      TidyGoesOn(second, states, old(|states|));
      NewMomentsAreTidy(states, old(|states|), old(Snap()), id);
    }

    /** Finish whatever transaction a crash left behind, as its last durable state decides. */
    method Recover() returns (r: Result<bool, Error>)
      requires Valid()
      modifies this
      // whatever moment a crash picks, everything before it was done in order, and the old release
      // never stands beside the new database
      ensures Tidy(states, old(|states|))
      ensures old(active.Some? && active.value in txs && txs[active.value].state != OBSERVING) ==>
                NeverMixed(states, old(|states|), old(Snap()), old(active).value)
      ensures Valid() && old(states) <= states
      // it always gets through unless the host fails, and then leaves no marker
      ensures r.Err? ==> r == Err(Unavailable)
      ensures r.Ok? ==> active.None? && pending.None?
      // without a transaction there is nothing to do
      ensures old(active).None? && old(pending).None? ==> r == Ok(false) && Snap() == old(Snap())
      // after HEALTHY the mutation stays, and recovery writes none of the files
      ensures ActiveIn(old(Snap()), {HEALTHY, COMMITTED}) ==>
                Spared(states, old(|states|)) && targets == old(targets)
                && old(active).value in txs && Keeping(txs[old(active).value].state)
                && (r.Ok? ==> r.value == false && txs[old(active).value].state == COMMITTED)
      // before HEALTHY it is undone: every target is its snapshot, and once PREPARED was reached so
      // was the database when it was handed over to the application
      ensures old(active).Some? && !ActiveIn(old(Snap()), {HEALTHY, COMMITTED}) && r.Ok? ==>
                && r.value == true && old(active).value in txs && txs[old(active).value].state == RESTORED
                && TargetsRestored(Snap(), txs[old(active).value])
                && (txs[old(active).value].prepared ==> HandedOver(states, old(|states|), txs[old(active).value]))
      // with only services pending the files are left alone
      ensures old(active).None? ==> targets == old(targets) && Spared(states, old(|states|))
    {
      if active.None? && pending.None? {
        NothingYet(states);
        return Ok(false);
      }
      var id := if active.Some? then active.value else pending.value;
      MarkedTransaction(Snap(), id);
      hide Inv, Run, Tidy, Spared, NeverMixed, TargetsRestored, DatabaseRestored, HandedOver;
      r := RecoverQuiesced(id);
      if old(active) == Some(id) && old(txs[id]).state != OBSERVING {
        NewMomentsAreTidy(states, old(|states|), old(Snap()), id);
      }
    }

    /** The transaction that a marker names, finished as its last durable state decides. */
    method RecoverQuiesced(id: Id) returns (r: Result<bool, Error>)
      requires Valid() && (active == Some(id) || (active.None? && pending == Some(id))) && id in txs
      modifies this
      ensures Tidy(states, old(|states|)) && Valid() && old(states) <= states
      ensures r.Err? ==> r == Err(Unavailable)
      ensures r.Ok? ==> active.None? && pending.None?
      ensures Keeping(old(txs[id]).state) ==>
                Spared(states, old(|states|)) && targets == old(targets) && id in txs && Keeping(txs[id].state)
                && (r.Ok? ==> r.value == false && txs[id].state == COMMITTED)
      ensures !Keeping(old(txs[id]).state) && r.Ok? ==> r.value == true && id in txs && txs[id].state == RESTORED
      ensures !Keeping(old(txs[id]).state) && r.Ok? && old(active) == Some(id) ==>
                TargetsRestored(Snap(), txs[id]) && (txs[id].prepared ==> HandedOver(states, old(|states|), txs[id]))
      ensures old(active).None? ==> targets == old(targets) && Spared(states, old(|states|))
    {
      MarkedTransaction(Snap(), id);
      hide Inv, Run, Tidy, Spared, TidyMoment, InOrder, ApplicationActs, DatabaseRestored, HandedOver;
      var state := txs[id].state;
      var done: Result<(), Error> := Ok(());
      if state == COMMITTED {
        done := FinishHealthyServices(id);
      } else if state == HEALTHY {
        done := FinishHealthy(id);
      } else {
        if state == OBSERVING {
          done := WriteState(id, RESTORED);
        } else if state != RESTORED {
          done := Undo(id);
        } else {
          NothingYet(states);
        }
        if done.Ok? {
          ghost var settled := states;
          done := FinishServices(id);
          TidyGoesOn(settled, states, old(|states|));
          if DatabaseRestored(Last(settled), txs[id]) {
            IsHandedOver(settled, states, old(|states|), txs[id]);
          }
        }
      }
      r := if done.Err? then Err(Unavailable) else Ok(state != COMMITTED && state != HEALTHY);
    }
  }

  lemma NothingYet(states: seq<State>)
    ensures Tidy(states, |states|) && Spared(states, |states|)
  {
  }

  lemma TidyGoesOn(before: seq<State>, states: seq<State>, n: nat)
    requires before <= states && n <= |before| && Tidy(before, n) && Tidy(states, |before|)
    ensures Tidy(states, n)
  {
    hide TidyMoment;
  }

  lemma CalmGoesOn(before: seq<State>, states: seq<State>, n: nat)
    requires before <= states && n <= |before| && Tidy(before, n) && Tidy(states, |before|)
    requires Spared(before, n) && Spared(states, |before|)
    ensures Tidy(states, n) && Spared(states, n)
  {
    hide TidyMoment, SparedMoment;
  }

  lemma IsHandedOver(before: seq<State>, states: seq<State>, n: nat, tx: Tx)
    requires before != [] && before <= states && n <= |before| && DatabaseRestored(Last(before), tx) && Spared(states, |before|)
    ensures HandedOver(states, n, tx)
  {
    hide DatabaseRestored, Spared;
    var c := |before| - 1;
    assert states[c] == Last(before);
  }

  lemma NewMomentsAreTidy(states: seq<State>, n: nat, start: State, id: Id)
    requires 0 < n <= |states| && Tidy(states, n) && states[n - 1] == start
    requires start.active == Some(id) && id in start.txs && start.txs[id].state != OBSERVING
    ensures NeverMixed(states, n, start, id)
  {
    hide Tidy, OldReleaseOldDatabase;
    forall k | n <= k < |states| ensures OldReleaseOldDatabase(start, states[k], id) {
      OldReleaseNeverMeetsNewDatabase(states, n - 1, k, id);
    }
  }

  lemma DatabaseStaysRestored(s: State, s': State, tx: Tx)
    requires s'.main == s.main && s'.sidecars == s.sidecars
    ensures DatabaseRestored(s, tx) ==> DatabaseRestored(s', tx)
  {
  }

  // ---- what the invariant says about a marked transaction -----------------------------------

  lemma MarkersAreSettled(s: State)
    requires Inv(s) && s.pending.Some?
    ensures PendingIsFinal(s)
    ensures s.active == s.pending ==> ActiveIsSettled(s)
  {
    assert TxOK(s, s.pending.value);
  }

  lemma NoneIsPending(s: State, id: Id)
    requires Inv(s) && s.active == Some(id) && !Final(s.txs[id].state)
    ensures s.pending.None?
  {
  }

  lemma PreparedHasEntry(s: State, id: Id)
    requires Inv(s) && id in s.txs && Recoverable(s.txs[id].state)
    ensures !s.txs[id].database.Planned? && s.txs[id].prepared
  {
    assert TxOK(s, id);
  }

  lemma MarkedTransaction(s: State, id: Id)
    requires Inv(s) && (s.active == Some(id) || (s.active.None? && s.pending == Some(id)))
    ensures id in s.txs && (s.pending.None? || s.pending == Some(id))
    ensures s.active.None? ==> Final(s.txs[id].state)
    ensures !Final(s.txs[id].state) ==> s.active == Some(id) && s.pending.None?
    ensures s.active == Some(id) && (s.txs[id].state == OBSERVING || s.txs[id].state == RESTORED) ==>
              TargetsRestored(s, s.txs[id]) && (s.txs[id].prepared ==> DatabaseRestored(s, s.txs[id]))
  {
    assert TxOK(s, id);
  }
}
