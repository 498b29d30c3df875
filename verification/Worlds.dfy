/** The whole appliance as an ideal: every snapshot owns a private copy of its files, the
    database is an exact table, and one `Label` is one persistent step (a commit, a file
    placed or removed, a process event).  Because each persistent step is its own label,
    stopping a run at any label is a crash of the web app at that point, and a theorem
    about every run is a theorem about every crash. */
module Worlds {
  import opened Options
  import opened Hardlinks

  // ----- Database rows -------------------------------------------------------------

  datatype Status = Running | Stopped
  datatype StopMethod = ByRcon | ByStdin | BySigterm | BySigkill | StopFailed

  datatype Settings = Settings(
    backupRoot: string,                // the server's directory under BACKUP_DIR
    jar: string,
    rconEnabled: bool,
    backupEnabled: bool,
    backupTime: string,
    backupOnStart: bool,
    minIntervalHours: int,
    keepGenerations: int)

  datatype Server = Server(pid: Option<nat>, status: Status, lastStop: Option<StopMethod>, settings: Settings)

  datatype Means = Zip | Rsync
  datatype Kind = Normal | PreRestore
  datatype BackupStatus = InProgress | Done | Failed

  datatype Backup = Backup(
    id: nat,
    server: nat,
    path: string,
    means: Means,
    kind: Kind,
    status: BackupStatus,
    created: real)

  /** A successful rsync snapshot of server `s`, of either kind. */
  predicate IsSnapshot(b: Backup, s: nat) {
    b.server == s && b.means.Rsync? && b.status.Done?
  }

  /** A snapshot that retention counts and prunes. */
  predicate IsGeneration(b: Backup, s: nat) {
    IsSnapshot(b, s) && b.kind.Normal?
  }

  // ----- World ---------------------------------------------------------------------

  datatype Signal = Term | Kill
  datatype Sent = Sent(pid: nat, signal: Signal)

  /** `taken` remembers the tree each snapshot was completed with, and `torn` the
      snapshots whose directory has since lost something; no decision reads them. */
  datatype World = World(
    servers: map<nat, Server>,
    procs: map<nat, nat>,              // live Minecraft processes: pid to server
    trees: map<Where, Files>,
    rows: seq<Backup>,                 // the backups table, oldest first
    now: real,
    signals: seq<Sent>,
    taken: map<nat, Files>,
    torn: set<nat>)

  predicate HasProcess(w: World, s: nat) {
    exists q :: q in w.procs && w.procs[q] == s
  }

  /** A completed snapshot from whose directory nothing has been removed. */
  predicate Settled(w: World, b: Backup) {
    b in w.rows && b.means.Rsync? && b.status.Done? && b.id !in w.torn
  }

  ghost function IdsAt(rows: seq<Backup>, dir: string): (ids: set<nat>)
    ensures forall b :: b in rows && b.path == dir && b.means.Rsync? && b.status.Done? ==> b.id in ids
  {
    set b | b in rows && b.path == dir && b.means.Rsync? && b.status.Done? :: b.id
  }

  function Without(rows: seq<Backup>, ids: set<nat>): (kept: seq<Backup>)
    ensures forall b :: b in kept <==> b in rows && b.id !in ids
  {
    if rows == [] then []
    else Without(rows[..|rows| - 1], ids) + (if rows[|rows| - 1].id in ids then [] else [rows[|rows| - 1]])
  }

  // ----- Labels --------------------------------------------------------------------

  /** What happens without the appliance: time, and the processes of the servers. */
  datatype EnvStep =
    | Pass(dt: real)
    | Exit(pid: nat)
    | Serve(server: nat, path: string, file: File)
    | Unserve(server: nat, path: string)

  /** Updates of one server's row, and what is asked of the operating system for it. */
  datatype ServerStep =
    | NoteRunning
    | NoteStopped(how: Option<StopMethod>)
    | NoteStopFailed
    | Configure(settings: Settings)
    | Signalled(pid: nat, signal: Signal)
    | Spawn(pid: nat)                  // Popen
    | NoteLaunched(pid: nat)           // the commit of the new pid

  /** The making of one snapshot; `k` is the position of its row. */
  datatype SnapStep =
    | Insert(row: Backup)
    | MakeDir(k: nat)
    | Place(k: nat, path: string, file: File)
    | Finish(k: nat)
    | Fail(k: nat)

  datatype RemovalStep =
    | Remove(dir: string, path: string)
    | RemoveDir(dir: string)
    | Drop(ids: set<nat>)

  datatype RevertStep =
    | Put(path: string, file: File)
    | Cut(path: string)

  datatype Label =
    | Env(env: EnvStep)
    | OnServer(server: nat, on: ServerStep)
    | OnSnapshot(snap: SnapStep)
    | Removal(rem: RemovalStep)
    | Reverting(k: nat, rev: RevertStep)   // under the pre-restore snapshot at position `k`

  // What each step may rely on when the appliance takes it.

  predicate EnvEnabled(w: World, e: EnvStep) {
    match e
    case Pass(dt) => dt >= 0.0
    case Exit(q) => q in w.procs
    case Serve(s, p, f) => HasProcess(w, s) && Live(s) in w.trees
    case Unserve(s, p) => HasProcess(w, s) && Live(s) in w.trees
  }

  predicate ServerEnabled(w: World, s: nat, e: ServerStep) {
    && s in w.servers
    && match e
       case NoteRunning => w.servers[s].pid.Some? && HasProcess(w, s)
       case NoteStopped(how) => !HasProcess(w, s)
       case NoteStopFailed => true
       case Configure(c) => true
       case Signalled(q, sig) => w.servers[s].pid == Some(q)
       case Spawn(q) =>
         w.servers[s].pid.None? && w.servers[s].status.Stopped? && q !in w.procs && Live(s) in w.trees
       case NoteLaunched(q) =>
         w.servers[s].pid.None? && w.servers[s].status.Stopped? && q in w.procs && w.procs[q] == s
  }

  predicate OpenRow(w: World, k: nat) {
    k < |w.rows| && w.rows[k].status.InProgress? && w.rows[k].means.Rsync?
  }

  predicate SnapEnabled(w: World, e: SnapStep) {
    match e
    case Insert(b) =>
      && b.server in w.servers && Live(b.server) in w.trees && !HasProcess(w, b.server)
      && b.means.Rsync? && b.status.InProgress? && Snap(b.path) !in w.trees
      && b.created == w.now && forall r :: r in w.rows ==> r.id != b.id && r.created < b.created
    case MakeDir(k) => OpenRow(w, k) && Snap(w.rows[k].path) !in w.trees
    case Place(k, p, f) =>
      && OpenRow(w, k) && Snap(w.rows[k].path) in w.trees && !HasProcess(w, w.rows[k].server)
      && forall b :: b in w.rows && b.path == w.rows[k].path ==> !Settled(w, b)
    case Finish(k) =>
      && OpenRow(w, k) && !HasProcess(w, w.rows[k].server)
      && Snap(w.rows[k].path) in w.trees && Live(w.rows[k].server) in w.trees
      && w.trees[Snap(w.rows[k].path)] == w.trees[Live(w.rows[k].server)]
    case Fail(k) => OpenRow(w, k)
  }

  predicate RemovalEnabled(w: World, e: RemovalStep) {
    match e
    case Remove(d, p) => Snap(d) in w.trees && p in w.trees[Snap(d)]
    case RemoveDir(d) => Snap(d) in w.trees && w.trees[Snap(d)] == map[]
    case Drop(ids) => true
  }

  predicate RevertEnabled(w: World, k: nat) {
    && k < |w.rows| && w.rows[k].kind.PreRestore? && Settled(w, w.rows[k])
    && Live(w.rows[k].server) in w.trees && !HasProcess(w, w.rows[k].server)
  }

  predicate Enabled(w: World, l: Label) {
    match l
    case Env(e) => EnvEnabled(w, e)
    case OnServer(s, e) => ServerEnabled(w, s, e)
    case OnSnapshot(e) => SnapEnabled(w, e)
    case Removal(e) => RemovalEnabled(w, e)
    case Reverting(k, e) => RevertEnabled(w, k)
  }

  function ApplyEnv(w: World, e: EnvStep): World
    requires EnvEnabled(w, e)
  {
    match e
    case Pass(dt) => w.(now := w.now + dt)
    case Exit(q) => w.(procs := w.procs - {q})
    case Serve(s, p, f) => w.(trees := w.trees[Live(s) := w.trees[Live(s)][p := f]])
    case Unserve(s, p) => w.(trees := w.trees[Live(s) := w.trees[Live(s)] - {p}])
  }

  function ApplyServer(w: World, s: nat, e: ServerStep): World
    requires ServerEnabled(w, s, e)
  {
    var sv := w.servers[s];
    match e
    case NoteRunning => w.(servers := w.servers[s := sv.(status := Running)])
    case NoteStopped(how) =>
      w.(servers := w.servers[s := sv.(pid := None, status := Stopped, lastStop := if how.Some? then how else sv.lastStop)])
    case NoteStopFailed => w.(servers := w.servers[s := sv.(lastStop := Some(StopFailed))])
    case Configure(c) => w.(servers := w.servers[s := sv.(settings := c)])
    case Signalled(q, sig) => w.(signals := w.signals + [Sent(q, sig)])
    case Spawn(q) => w.(procs := w.procs[q := s])
    case NoteLaunched(q) => w.(servers := w.servers[s := sv.(pid := Some(q), status := Running, lastStop := None)])
  }

  function ApplySnap(w: World, e: SnapStep): World
    requires SnapEnabled(w, e)
  {
    match e
    case Insert(b) => w.(rows := w.rows + [b])
    case MakeDir(k) => w.(trees := w.trees[Snap(w.rows[k].path) := map[]])
    case Place(k, p, f) =>
      var d := Snap(w.rows[k].path);
      w.(trees := w.trees[d := w.trees[d][p := f]])
    case Finish(k) =>
      var b := w.rows[k];
      w.(rows := w.rows[k := b.(status := Done)],
         taken := w.taken[b.id := w.trees[Snap(b.path)]], torn := w.torn - {b.id})
    case Fail(k) => w.(rows := w.rows[k := w.rows[k].(status := Failed)])
  }

  ghost function ApplyRemoval(w: World, e: RemovalStep): World
    requires RemovalEnabled(w, e)
  {
    match e
    case Remove(d, p) =>
      w.(trees := w.trees[Snap(d) := w.trees[Snap(d)] - {p}], torn := w.torn + IdsAt(w.rows, d))
    case RemoveDir(d) => w.(trees := w.trees - {Snap(d)}, torn := w.torn + IdsAt(w.rows, d))
    case Drop(ids) => w.(rows := Without(w.rows, ids), taken := w.taken - ids, torn := w.torn - ids)
  }

  function ApplyRevert(w: World, k: nat, e: RevertStep): World
    requires RevertEnabled(w, k)
  {
    var t := Live(w.rows[k].server);
    match e
    case Put(p, f) => w.(trees := w.trees[t := w.trees[t][p := f]])
    case Cut(p) => w.(trees := w.trees[t := w.trees[t] - {p}])
  }

  /** A step that is not enabled does nothing. */
  ghost function Apply(w: World, l: Label): World {
    if !Enabled(w, l) then w else
    match l
    case Env(e) => ApplyEnv(w, e)
    case OnServer(s, e) => ApplyServer(w, s, e)
    case OnSnapshot(e) => ApplySnap(w, e)
    case Removal(e) => ApplyRemoval(w, e)
    case Reverting(k, e) => ApplyRevert(w, k, e)
  }

  // ----- Runs ----------------------------------------------------------------------

  ghost function Exec(w: World, ls: seq<Label>): World
    decreases |ls|
  {
    if ls == [] then w else Apply(Exec(w, ls[..|ls| - 1]), ls[|ls| - 1])
  }

  ghost predicate Legal(w: World, ls: seq<Label>)
    decreases |ls|
  {
    ls != [] ==> Legal(w, ls[..|ls| - 1]) && Enabled(Exec(w, ls[..|ls| - 1]), ls[|ls| - 1])
  }

  lemma RunSnoc(w: World, ls: seq<Label>, l: Label)
    requires Legal(w, ls) && Enabled(Exec(w, ls), l)
    ensures Legal(w, ls + [l]) && Exec(w, ls + [l]) == Apply(Exec(w, ls), l)
  {
    assert (ls + [l])[..|ls|] == ls;
  }

  /** Every process is recorded on the row of the server it belongs to. */
  predicate Owned(w: World) {
    forall q :: q in w.procs ==> w.procs[q] in w.servers && w.servers[w.procs[q]].pid == Some(q)
  }

  predicate Ordered(rows: seq<Backup>) {
    forall i, j :: 0 <= i < j < |rows| ==> rows[i].created < rows[j].created && rows[i].id != rows[j].id
  }

  /** Rows are in creation order, none from the future, no two with the same id. */
  predicate Ledger(w: World) {
    && Ordered(w.rows)
    && forall b :: b in w.rows ==> b.created <= w.now
  }

  /** A settled snapshot's directory is there, with exactly the files it was completed with. */
  ghost predicate Intact(w: World) {
    forall b :: Settled(w, b) ==> b.id in w.taken && Snap(b.path) in w.trees && w.trees[Snap(b.path)] == w.taken[b.id]
  }

  /** What every persistent step keeps.  `Owned` is not part of it: between a launch and the
      commit of its pid the new process is on no row. */
  ghost predicate Inv(w: World) {
    Ledger(w) && Intact(w)
  }

  lemma LedgerIds(w: World, a: Backup, b: Backup)
    requires Ledger(w) && a in w.rows && b in w.rows && a.id == b.id
    ensures a == b
  {
    var i :| 0 <= i < |w.rows| && w.rows[i] == a;
    var j :| 0 <= j < |w.rows| && w.rows[j] == b;
  }
}
