/** The maintenance journal as a state machine: one step per durable or filesystem effect, for
    any number of operations, journals and processes, with a process death possible between
    any two steps. */
module MaintenanceModel {

  import opened Wrappers
  import opened StoragePaths
  import opened StorageTree

  type Id = nat

  datatype Phase = Intent | Detached | Committed | Finalized | RolledBack

  datatype Receipt = Planned | Moved | Restored | Deleted

  /** A filesystem object: its identity and its contents. A rename moves it unchanged. */
  datatype Entry = Entry(inode: int, tree: Tree)

  datatype Target = Target(root: Path, name: Component, inode: int, bytes: nat, files: nat, receipt: Receipt)

  /** A process and its start token: a restarted process is a different value. */
  datatype Process = Process(host: nat, token: nat)

  /** One journal instance: the holder of leases. */
  datatype Owner = Owner(instance: nat, process: Process)

  datatype Row = Row(kind: string, subject: string, phase: Phase, targets: seq<Target>, owner: Owner, expires: int)

  /** One thread of a client program. A process has one journal, so many workers share an owner. */
  datatype Worker = Worker(owner: Owner, serial: nat)

  /** A worker inside the program of one operation. */
  datatype Thread = Thread(operation: Id, worker: Worker)

  datatype Pc =
    | Staging(next: nat)    // about to look at target `next`, or past the last one
    | Renamed(at: nat)      // target `at` is in quarantine, its row is not yet saved
    | Staged                // stage() returned: the domain transaction may run
    | Restoring(rest: nat)  // targets `rest` and above are restored
    | PutBack(at: nat)      // target `at` is at its origin, its row is not yet saved
    | Reaping(next: nat)    // targets below `next` are deleted
    | Reaped(at: nat)       // target `at` is deleted, its row is not yet saved

  /** Where a thread's program is, and its own copy of the receipts: each save writes the whole copy. */
  datatype Work = Work(pc: Pc, receipts: seq<Receipt>)

  datatype State = State(
    fs: map<Path, Entry>,
    rows: map<Id, Row>,
    claims: map<Path, Id>,
    live: set<Process>,
    threads: map<Thread, Work>,
    drafts: map<Thread, seq<Target>>,  // what callers of begin have measured and not yet published
    now: int,
    domain: set<Id>)  // operations whose domain mutation is durable

  datatype Step =
    | Start(process: Process)
    | Crash(process: Process)
    | Write(path: Path, content: Option<Entry>)
    | Tick(seconds: nat)
    | Measure(op: Id, who: Worker, target: Target)
    | Discard(op: Id, who: Worker)
    | Begin(op: Id, who: Worker, kind: string, subject: string, targets: seq<Target>, until: int)
    | Refresh(op: Id, who: Worker, until: int)
    | BeginStage(op: Id, who: Worker, until: int)
    | BeginRollback(op: Id, who: Worker, until: int)
    | BeginReap(op: Id, who: Worker, until: int)
    | Park(op: Id, who: Worker)
    | SkipPark(op: Id, who: Worker)
    | SavePark(op: Id, who: Worker, until: int)
    | SaveDetached(op: Id, who: Worker, until: int)
    | Commit(op: Id, who: Worker, kind: string, subject: string)
    | PutTargetBack(op: Id, who: Worker)
    | SkipPutBack(op: Id, who: Worker)
    | SaveRestored(op: Id, who: Worker, until: int)
    | SaveRolledBack(op: Id, who: Worker, until: int)
    | Reap(op: Id, who: Worker)
    | SkipReap(op: Id, who: Worker)
    | SaveReaped(op: Id, who: Worker, until: int)
    | SaveFinalized(op: Id, who: Worker, until: int)
    | Abandon(op: Id, who: Worker)

  // ---- vocabulary ---------------------------------------------------------------------------

  function Original(t: Target): Path { Child(t.root, t.name) }

  function Parking(t: Target, op: Id, i: nat): Path { ParkingPlace(t.root, t.name, op, i) }

  predicate Matches(t: Target, e: Entry) {
    e.inode == t.inode && Bytes(e.tree) == t.bytes && Files(e.tree) == t.files
  }

  predicate Unfinished(row: Row) { !row.phase.Finalized? && !row.phase.RolledBack? }

  function Originals(targets: seq<Target>): set<Path> { set t | t in targets :: Original(t) }

  /** The lease rule of `_claim`: an owner may always renew; a stranger on the same host needs a
      dead holder; a stranger on another host needs an expired lease. */
  predicate CanClaim(s: State, row: Row, who: Owner) {
    var sameHost := row.owner.process.host == who.process.host;
    var ownerAlive := sameHost && row.owner.process in s.live;
    var expired := row.expires <= s.now;
    && !(row.owner != who && ownerAlive)
    && !(row.owner != who && !sameHost && !expired)
  }

  /** What the domain transaction checks before it marks an operation committed. */
  predicate CommitAccepts(row: Row, kind: string, subject: string) {
    && row.kind == kind && row.subject == subject
    && row.phase == Detached
    && forall t | t in row.targets :: t.receipt == Moved
  }

  /** Paths that nobody else writes: what an unfinished operation owns, and any quarantine name. The
      original path of a target that is measured but not yet published is not among them. */
  predicate Reserved(s: State, path: Path) {
    (exists op, i: nat | op in s.rows && i < |s.rows[op].targets| ::
      (Unfinished(s.rows[op]) && path == Original(s.rows[op].targets[i])) || path == Parking(s.rows[op].targets[i], op, i))
    || DraftedParking(s, path)
  }

  predicate DraftedParking(s: State, path: Path) {
    exists t, i: nat | t in s.drafts && i < |s.drafts[t]| :: path == Parking(s.drafts[t][i], t.operation, i)
  }

  // ---- steps --------------------------------------------------------------------------------

  predicate At(s: State, op: Id, who: Worker) {
    op in s.rows && Thread(op, who) in s.threads
  }

  function PcOf(s: State, op: Id, who: Worker): Pc
    requires At(s, op, who)
  {
    s.threads[Thread(op, who)].pc
  }

  function CopyOf(s: State, op: Id, who: Worker): seq<Receipt>
    requires At(s, op, who)
  {
    s.threads[Thread(op, who)].receipts
  }

  predicate ClaimEnabled(s: State, op: Id, who: Worker) {
    op in s.rows && who.owner.process in s.live && CanClaim(s, s.rows[op], who.owner)
  }

  /** A save updates the row only under its lease, whatever its phase. */
  predicate MaySave(s: State, op: Id, who: Worker)
    requires At(s, op, who)
  {
    s.rows[op].owner == who.owner && |CopyOf(s, op, who)| == |s.rows[op].targets|
  }

  function DraftOf(s: State, op: Id, who: Worker): seq<Target> {
    if Thread(op, who) in s.drafts then s.drafts[Thread(op, who)] else []
  }

  predicate TargetIsSound(s: State, t: Target, op: Id, i: nat) {
    && ProperRoot(t.root) && t.name != Trash && t.receipt == Planned
    && Original(t) in s.fs && Matches(t, s.fs[Original(t)])
    && Parking(t, op, i) !in s.fs
  }

  /** What `begin` finds when it measures its targets. */
  predicate TargetsAreSound(s: State, op: Id, targets: seq<Target>) {
    && 1 <= |targets| <= 1024
    && (forall i | 0 <= i < |targets| :: TargetIsSound(s, targets[i], op, i))
    && (forall i, j | 0 <= i < j < |targets| :: Original(targets[i]) != Original(targets[j]))
  }

  predicate NoConflict(s: State, targets: seq<Target>) {
    && (forall op, i, j | op in s.rows && Unfinished(s.rows[op]) && 0 <= i < |s.rows[op].targets| && 0 <= j < |targets| ::
         !Overlap(Original(targets[j]), Original(s.rows[op].targets[i])))
    && (forall t | t in targets :: Original(t) !in s.claims)
  }

  predicate Enabled(s: State, step: Step) {
    match step
    case Start(p) => p !in s.live
    case Crash(p) => p in s.live
    case Write(path, _) => !Reserved(s, path)
    case Tick(_) => true
    case Measure(op, who, t) =>
      var draft := DraftOf(s, op, who);
      op !in s.rows && who.owner.process in s.live
      && |draft| < 1024 && TargetIsSound(s, t, op, |draft|) && Original(t) !in Originals(draft)
    case Discard(op, who) => Thread(op, who) in s.drafts
    case Begin(op, who, _, _, targets, _) =>
      op !in s.rows && who.owner.process in s.live && targets == DraftOf(s, op, who) && targets != [] && NoConflict(s, targets)
    case Refresh(op, who, _) => ClaimEnabled(s, op, who)
    case BeginStage(op, who, _) => ClaimEnabled(s, op, who) && s.rows[op].phase == Intent
    case BeginRollback(op, who, _) =>
      ClaimEnabled(s, op, who) && (s.rows[op].phase == Intent || s.rows[op].phase == Detached)
    case BeginReap(op, who, _) =>
      ClaimEnabled(s, op, who) && s.rows[op].phase == Committed
    case Park(op, who) =>
      At(s, op, who) && PcOf(s, op, who).Staging? &&
      var i := PcOf(s, op, who).next;
      i < |s.rows[op].targets| &&
      var t := s.rows[op].targets[i];
      Original(t) in s.fs && Parking(t, op, i) !in s.fs && Matches(t, s.fs[Original(t)])
    case SkipPark(op, who) =>
      At(s, op, who) && PcOf(s, op, who).Staging? &&
      var i := PcOf(s, op, who).next;
      i < |s.rows[op].targets| &&
      var t := s.rows[op].targets[i];
      Original(t) !in s.fs && Parking(t, op, i) in s.fs && Matches(t, s.fs[Parking(t, op, i)])
    case SavePark(op, who, _) =>
      At(s, op, who) && PcOf(s, op, who).Renamed? && PcOf(s, op, who).at < |s.rows[op].targets| && MaySave(s, op, who)
    case SaveDetached(op, who, _) =>
      At(s, op, who) && PcOf(s, op, who) == Staging(|s.rows[op].targets|) && MaySave(s, op, who)
    case Commit(op, who, kind, subject) =>
      At(s, op, who) && PcOf(s, op, who) == Staged && CommitAccepts(s.rows[op], kind, subject)
    case PutTargetBack(op, who) =>
      At(s, op, who) && PcOf(s, op, who).Restoring? &&
      var k := PcOf(s, op, who).rest;
      0 < k <= |s.rows[op].targets| &&
      var t := s.rows[op].targets[k - 1];
      Parking(t, op, k - 1) in s.fs && Original(t) !in s.fs && Matches(t, s.fs[Parking(t, op, k - 1)])
    case SkipPutBack(op, who) =>
      At(s, op, who) && PcOf(s, op, who).Restoring? &&
      var k := PcOf(s, op, who).rest;
      0 < k <= |s.rows[op].targets| &&
      var t := s.rows[op].targets[k - 1];
      Parking(t, op, k - 1) !in s.fs && Original(t) in s.fs && s.fs[Original(t)].inode == t.inode
    case SaveRestored(op, who, _) =>
      At(s, op, who) && PcOf(s, op, who).PutBack? && PcOf(s, op, who).at < |s.rows[op].targets| && MaySave(s, op, who)
    case SaveRolledBack(op, who, _) =>
      At(s, op, who) && PcOf(s, op, who) == Restoring(0) && MaySave(s, op, who)
    case Reap(op, who) =>
      At(s, op, who) && PcOf(s, op, who).Reaping? &&
      var i := PcOf(s, op, who).next;
      i < |s.rows[op].targets| &&
      var t := s.rows[op].targets[i];
      Original(t) !in s.fs && Parking(t, op, i) in s.fs && Matches(t, s.fs[Parking(t, op, i)])
    case SkipReap(op, who) =>
      At(s, op, who) && PcOf(s, op, who).Reaping? &&
      var i := PcOf(s, op, who).next;
      i < |s.rows[op].targets| &&
      var t := s.rows[op].targets[i];
      Original(t) !in s.fs && Parking(t, op, i) !in s.fs
    case SaveReaped(op, who, _) =>
      At(s, op, who) && PcOf(s, op, who).Reaped? && PcOf(s, op, who).at < |s.rows[op].targets| && MaySave(s, op, who)
    case SaveFinalized(op, who, _) =>
      At(s, op, who) && PcOf(s, op, who) == Reaping(|s.rows[op].targets|) && MaySave(s, op, who)
    case Abandon(op, who) => At(s, op, who)
  }

  function Leased(row: Row, who: Owner, until: int): Row { row.(owner := who, expires := until) }

  function Receipts(targets: seq<Target>): (receipts: seq<Receipt>)
    ensures |receipts| == |targets| && forall i | 0 <= i < |targets| :: receipts[i] == targets[i].receipt
  {
    seq(|targets|, i requires 0 <= i < |targets| => targets[i].receipt)
  }

  function Receipted(targets: seq<Target>, receipts: seq<Receipt>): (marked: seq<Target>)
    requires |receipts| == |targets|
    ensures |marked| == |targets| && forall i | 0 <= i < |targets| :: marked[i] == targets[i].(receipt := receipts[i])
  {
    seq(|targets|, i requires 0 <= i < |targets| => targets[i].(receipt := receipts[i]))
  }

  function Unclaimed(claims: map<Path, Id>, op: Id): map<Path, Id> {
    map p | p in claims && claims[p] != op :: claims[p]
  }

  function Renaming(fs: map<Path, Entry>, source: Path, destination: Path): map<Path, Entry>
    requires source in fs
  {
    (fs - {source})[destination := fs[source]]
  }

  function WithRow(s: State, op: Id, row: Row): State { s.(rows := s.rows[op := row]) }

  function Goto(s: State, op: Id, who: Worker, pc: Pc): State
    requires At(s, op, who)
  {
    s.(threads := s.threads[Thread(op, who) := Work(pc, CopyOf(s, op, who))])
  }

  function Done(s: State, op: Id, who: Worker): State {
    s.(threads := s.threads - {Thread(op, who)})
  }

  /** A claim that starts a program: the lease, and a thread with a fresh copy of the receipts. */
  function Enter(s: State, op: Id, who: Worker, until: int, pc: Pc): State
    requires op in s.rows
  {
    WithRow(s, op, Leased(s.rows[op], who.owner, until))
    .(threads := s.threads[Thread(op, who) := Work(pc, Receipts(s.rows[op].targets))])
  }

  /** A save of the thread's copy with one more receipt. */
  function SaveOne(s: State, op: Id, who: Worker, i: nat, receipt: Receipt, until: int, pc: Pc): State
    requires At(s, op, who) && MaySave(s, op, who) && i < |s.rows[op].targets|
  {
    var receipts := CopyOf(s, op, who)[i := receipt];
    WithRow(s, op, s.rows[op].(targets := Receipted(s.rows[op].targets, receipts), expires := until))
    .(threads := s.threads[Thread(op, who) := Work(pc, receipts)])
  }

  /** A save of the thread's copy with a new phase. */
  function SavePhase(s: State, op: Id, who: Worker, phase: Phase, until: int): State
    requires At(s, op, who) && MaySave(s, op, who)
  {
    WithRow(s, op, s.rows[op].(targets := Receipted(s.rows[op].targets, CopyOf(s, op, who)), phase := phase, expires := until))
  }

  /** The publication of an intent: its row, and one claim a target. */
  function Published(s: State, op: Id, who: Worker, row: Row): State {
    WithRow(s, op, row).(claims := s.claims + (map p | p in Originals(row.targets) :: op), drafts := s.drafts - {Thread(op, who)})
  }

  function After(s: State, step: Step): State
    requires Enabled(s, step)
  {
    match step
    case Start(p) => s.(live := s.live + {p})
    case Crash(p) =>
      s.(live := s.live - {p}, threads := map t | t in s.threads && t.worker.owner.process != p :: s.threads[t],
         drafts := map t | t in s.drafts && t.worker.owner.process != p :: s.drafts[t])
    case Write(path, content) =>
      s.(fs := match content case Some(e) => s.fs[path := e] case None => s.fs - {path})
    case Tick(seconds) => s.(now := s.now + seconds)
    case Measure(op, who, t) => s.(drafts := s.drafts[Thread(op, who) := DraftOf(s, op, who) + [t]])
    case Discard(op, who) => s.(drafts := s.drafts - {Thread(op, who)})
    case Begin(op, who, kind, subject, targets, until) =>
      Published(s, op, who, Row(kind, subject, Intent, targets, who.owner, until))
    case Refresh(op, who, until) => WithRow(s, op, Leased(s.rows[op], who.owner, until))
    case BeginStage(op, who, until) => Enter(s, op, who, until, Staging(0))
    case BeginRollback(op, who, until) => Enter(s, op, who, until, Restoring(|s.rows[op].targets|))
    case BeginReap(op, who, until) => Enter(s, op, who, until, Reaping(0))
    case Park(op, who) =>
      var i := PcOf(s, op, who).next;
      var t := s.rows[op].targets[i];
      Goto(s, op, who, Renamed(i)).(fs := Renaming(s.fs, Original(t), Parking(t, op, i)))
    case SkipPark(op, who) => Goto(s, op, who, Renamed(PcOf(s, op, who).next))
    case SavePark(op, who, until) =>
      var i := PcOf(s, op, who).at;
      SaveOne(s, op, who, i, Moved, until, Staging(i + 1))
    case SaveDetached(op, who, until) => Goto(SavePhase(s, op, who, Detached, until), op, who, Staged)
    case Commit(op, who, _, _) =>
      Done(WithRow(s, op, s.rows[op].(phase := Committed)), op, who).(domain := s.domain + {op})
    case PutTargetBack(op, who) =>
      var k := PcOf(s, op, who).rest;
      var t := s.rows[op].targets[k - 1];
      Goto(s, op, who, PutBack(k - 1)).(fs := Renaming(s.fs, Parking(t, op, k - 1), Original(t)))
    case SkipPutBack(op, who) => Goto(s, op, who, PutBack(PcOf(s, op, who).rest - 1))
    case SaveRestored(op, who, until) =>
      var k := PcOf(s, op, who).at;
      SaveOne(s, op, who, k, Restored, until, Restoring(k))
    case SaveRolledBack(op, who, until) =>
      Done(SavePhase(s, op, who, RolledBack, until), op, who).(claims := Unclaimed(s.claims, op))
    case Reap(op, who) =>
      var i := PcOf(s, op, who).next;
      Goto(s, op, who, Reaped(i)).(fs := s.fs - {Parking(s.rows[op].targets[i], op, i)})
    case SkipReap(op, who) => Goto(s, op, who, Reaped(PcOf(s, op, who).next))
    case SaveReaped(op, who, until) =>
      var i := PcOf(s, op, who).at;
      SaveOne(s, op, who, i, Deleted, until, Reaping(i + 1))
    case SaveFinalized(op, who, until) =>
      Done(SavePhase(s, op, who, Finalized, until), op, who).(claims := Unclaimed(s.claims, op))
    case Abandon(op, who) => Done(s, op, who)
  }

  /** The four uses of `_claim`: a plain look, and the start of stage, rollback and finalize. */
  predicate IsClaim(step: Step) {
    step.Refresh? || step.BeginStage? || step.BeginRollback? || step.BeginReap?
  }

  /** The assumption about claims, and a caller can check it: nobody else is at work on the
      operation. A bare look may share the lease with other workers of the same journal. */
  ghost predicate Alone(s: State, step: Step) {
    IsClaim(step) && step.op in s.rows ==>
      forall w | Thread(step.op, w) in s.threads :: w == step.who || (step.Refresh? && w.owner == step.who.owner)
  }

  /** The assumption about publications: every target still stands where it was measured. */
  predicate Current(s: State, step: Step) {
    step.Begin? ==> forall t | t in step.targets :: Stands(s, t)
  }

  predicate Stands(s: State, t: Target) { Original(t) in s.fs && Matches(t, s.fs[Original(t)]) }

  /** Both assumptions about one step. */
  ghost predicate Careful(s: State, step: Step) { Alone(s, step) && Current(s, step) }

  // ---- invariant ----------------------------------------------------------------------------

  predicate AtOrigin(s: State, op: Id, i: nat)
    requires op in s.rows && i < |s.rows[op].targets|
  {
    var t := s.rows[op].targets[i];
    Original(t) in s.fs && Matches(t, s.fs[Original(t)]) && Parking(t, op, i) !in s.fs
  }

  predicate InTrash(s: State, op: Id, i: nat)
    requires op in s.rows && i < |s.rows[op].targets|
  {
    var t := s.rows[op].targets[i];
    Original(t) !in s.fs && Parking(t, op, i) in s.fs && Matches(t, s.fs[Parking(t, op, i)])
  }

  predicate Gone(s: State, op: Id, i: nat)
    requires op in s.rows && i < |s.rows[op].targets|
  {
    var t := s.rows[op].targets[i];
    Original(t) !in s.fs && Parking(t, op, i) !in s.fs
  }

  ghost predicate PcOK(s: State, op: Id, pc: Pc)
    requires op in s.rows
  {
    var row := s.rows[op];
    var n := |row.targets|;
    match pc
    case Staging(i) =>
      i <= n && row.phase == Intent
      && (forall j | 0 <= j < i :: InTrash(s, op, j) && row.targets[j].receipt == Moved)
    case Renamed(i) =>
      i < n && row.phase == Intent
      && (forall j | 0 <= j < i :: InTrash(s, op, j) && row.targets[j].receipt == Moved)
      && InTrash(s, op, i)
    case Staged =>
      row.phase == Detached && (forall j | 0 <= j < n :: InTrash(s, op, j) && row.targets[j].receipt == Moved)
    case Restoring(k) =>
      k <= n && (row.phase == Intent || row.phase == Detached) && (forall j | k <= j < n :: AtOrigin(s, op, j))
    case PutBack(k) =>
      k < n && (row.phase == Intent || row.phase == Detached) && (forall j | k <= j < n :: AtOrigin(s, op, j))
    case Reaping(i) =>
      i <= n && row.phase == Committed && (forall j | 0 <= j < i :: Gone(s, op, j))
    case Reaped(i) =>
      i < n && row.phase == Committed && (forall j | 0 <= j <= i :: Gone(s, op, j))
  }

  ghost predicate TargetsOK(row: Row) {
    && |row.targets| >= 1
    && (forall i | 0 <= i < |row.targets| :: ProperRoot(row.targets[i].root))
    && (forall i, j | 0 <= i < j < |row.targets| :: Original(row.targets[i]) != Original(row.targets[j]))
  }

  predicate Unparked(s: State, op: Id, i: nat)
    requires op in s.rows && i < |s.rows[op].targets|
  {
    Parking(s.rows[op].targets[i], op, i) !in s.fs
  }

  /** All-or-nothing for one operation, at every moment: before the domain commit each target is
      at exactly one of origin and quarantine; from the commit on, none is at its origin; and a
      finished operation has nothing in quarantine. */
  ghost predicate PlacesOK(s: State, op: Id)
    requires op in s.rows
  {
    var row := s.rows[op];
    && (row.phase == Intent || row.phase == Detached ==> forall i | 0 <= i < |row.targets| :: AtOrigin(s, op, i) || InTrash(s, op, i))
    && (row.phase == Committed ==> forall i | 0 <= i < |row.targets| :: InTrash(s, op, i) || Gone(s, op, i))
    && (!Unfinished(row) ==> forall i | 0 <= i < |row.targets| :: Unparked(s, op, i))
  }

  /** At most one worker is inside an operation, under the lease, with an exact copy. */
  ghost predicate ThreadsOK(s: State, op: Id)
    requires op in s.rows
  {
    && (forall w | Thread(op, w) in s.threads ::
         && w.owner == s.rows[op].owner && w.owner.process in s.live
         && PcOK(s, op, s.threads[Thread(op, w)].pc) && s.threads[Thread(op, w)].receipts == Receipts(s.rows[op].targets))
    && (forall v, w | Thread(op, v) in s.threads && Thread(op, w) in s.threads :: v == w)
  }

  ghost predicate RowOK(s: State, op: Id)
    requires op in s.rows
  {
    && TargetsOK(s.rows[op])
    && PlacesOK(s, op)
    && (op in s.domain <==> s.rows[op].phase == Committed || s.rows[op].phase == Finalized)
    && ThreadsOK(s, op)
  }

  /** Unfinished operations own disjoint subtrees. */
  ghost predicate SubtreesDisjoint(s: State) {
    forall a, b, i, j | a in s.rows && b in s.rows && a != b && Unfinished(s.rows[a]) && Unfinished(s.rows[b])
                        && 0 <= i < |s.rows[a].targets| && 0 <= j < |s.rows[b].targets| ::
      !Overlap(Original(s.rows[a].targets[i]), Original(s.rows[b].targets[j]))
  }

  /** The claims table holds exactly the original paths of the unfinished operations. */
  ghost predicate ClaimsOK(s: State) {
    && (forall p | p in s.claims ::
         s.claims[p] in s.rows && Unfinished(s.rows[s.claims[p]]) && p in Originals(s.rows[s.claims[p]].targets))
    && (forall op, i | op in s.rows && Unfinished(s.rows[op]) && 0 <= i < |s.rows[op].targets| ::
         Original(s.rows[op].targets[i]) in s.claims && s.claims[Original(s.rows[op].targets[i])] == op)
  }

  /** Measured targets are well formed, whatever becomes of what they name. */
  predicate WellFormed(targets: seq<Target>) {
    && (forall i | 0 <= i < |targets| :: ProperRoot(targets[i].root) && targets[i].name != Trash && targets[i].receipt == Planned)
    && (forall i, j | 0 <= i < j < |targets| :: Original(targets[i]) != Original(targets[j]))
  }

  /** And their parking places stay free. */
  ghost predicate DraftOK(s: State, t: Thread)
    requires t in s.drafts
  {
    WellFormed(s.drafts[t]) && forall i | 0 <= i < |s.drafts[t]| :: Parking(s.drafts[t][i], t.operation, i) !in s.fs
  }

  ghost predicate DraftsOK(s: State) {
    forall t | t in s.drafts && t.operation !in s.rows :: DraftOK(s, t)
  }

  ghost predicate Inv(s: State) {
    && (forall op | op in s.rows :: RowOK(s, op))
    && SubtreesDisjoint(s)
    && ClaimsOK(s)
    && DraftsOK(s)
    && (forall t | t in s.threads :: t.operation in s.rows)
    && s.domain <= s.rows.Keys
  }

}
