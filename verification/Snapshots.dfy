/** Taking one snapshot. */
module Snapshots {
  import opened Options
  import opened Hardlinks
  import opened Worlds
  import opened Runs
  import opened Environments
  import opened Appliances
  import opened Hosts
  import opened Naming

  /** Two rows of one table never get the same creation time. */
  const CLOCK_TICK := 0.000001

  /** Everything outside the table of backups, the snapshot directories in `ds` and the
      files of servers that have a process. */
  predicate Frame(w: World, w': World, ds: set<string>) {
    && w'.servers == w.servers && w'.signals == w.signals && w'.now >= w.now
    && (forall q :: q in w'.procs ==> q in w.procs && w'.procs[q] == w.procs[q])
    && (forall x :: x in w'.trees ==> x in w.trees || (x.Snap? && x.dir in ds))
    && (forall x :: x in w.trees && x.Live? ==> x in w'.trees)
    && forall x :: x in w.trees && (if x.Snap? then x.dir !in ds else !HasProcess(w, x.server))
         ==> x in w'.trees && w'.trees[x] == w.trees[x]
  }

  lemma FrameTransitive(a: World, b: World, c: World, d1: set<string>, d2: set<string>, ds: set<string>)
    requires Frame(a, b, d1) && Frame(b, c, d2) && d1 <= ds && d2 <= ds
    ensures Frame(a, c, ds)
  {
    assert forall s :: HasProcess(b, s) ==> HasProcess(a, s);
  }

  lemma EnvIsFramed(a: World, b: World)
    requires EnvFrame(a, b)
    ensures Frame(a, b, {}) && SameBook(a, b)
  {
  }

  lemma SnapIsFramed(w: World, e: SnapStep)
    requires SnapEnabled(w, e)
    ensures Frame(w, ApplySnap(w, e), if e.MakeDir? || e.Place? then {w.rows[e.k].path} else {})
  {
  }

  /** A server without a process gains none, and keeps its files. */
  lemma FrameKeepsStopped(a: World, b: World, ds: set<string>, s: nat)
    requires Frame(a, b, ds) && !HasProcess(a, s)
    ensures !HasProcess(b, s)
    ensures Live(s) in a.trees ==> Live(s) in b.trees && b.trees[Live(s)] == a.trees[Live(s)]
  {
  }

  // ----- Choosing the link source ----------------------------------------------------

  predicate OnDisk(dirs: set<Where>, b: Backup) {
    Snap(b.path) in dirs
  }

  /** The newest successful rsync snapshot of `s`, of either kind, whose directory exists.
      Rows that are still in progress or have failed are never chosen. */
  method LastSuccessfulSnapshot(rows: seq<Backup>, dirs: set<Where>, s: nat) returns (last: Option<Backup>)
    requires Ordered(rows)
    ensures last.Some? ==> last.value in rows && IsSnapshot(last.value, s) && OnDisk(dirs, last.value)
    ensures forall b :: b in rows && IsSnapshot(b, s) && OnDisk(dirs, b) ==>
              last.Some? && b.created <= last.value.created
    ensures last.Some? ==>
              last.value.server == s && last.value.means == Rsync && last.value.status == Done && Snap(last.value.path) in dirs
    ensures forall b :: b in rows && b.server == s && b.means == Rsync && b.status == Done && Snap(b.path) in dirs ==>
              last.Some? && b.created <= last.value.created
  {
    var i := |rows|;
    while i > 0
      invariant 0 <= i <= |rows|
      invariant forall j :: i <= j < |rows| ==> !(IsSnapshot(rows[j], s) && OnDisk(dirs, rows[j]))
    {
      i := i - 1;
      if IsSnapshot(rows[i], s) && OnDisk(dirs, rows[i]) {
        return Some(rows[i]);
      }
    }
    return None;
  }

  // ----- rsync into a new directory ----------------------------------------------------

  /** What is known while the files of server `rows[k].server` are being copied. */
  predicate Copying(w0: World, w: World, k: nat) {
    && SameBook(w0, w) && OpenRow(w0, k)
    && Frame(w0, w, {w0.rows[k].path})
    && Snap(w0.rows[k].path) in w.trees && Live(w0.rows[k].server) in w0.trees && Live(w0.rows[k].server) in w.trees
    && !HasProcess(w, w0.rows[k].server)
    && w.trees[Live(w0.rows[k].server)] == w0.trees[Live(w0.rows[k].server)]
    && forall b :: b in w0.rows && b.path == w0.rows[k].path ==> !Settled(w0, b)
  }

  /** The files of the server that row `k` is for are all in place, but for `todo`. */
  predicate CopiedExcept(w: World, k: nat, todo: set<string>) {
    && OpenRow(w, k) && Snap(w.rows[k].path) in w.trees && Live(w.rows[k].server) in w.trees
    && var src, dst := w.trees[Live(w.rows[k].server)], w.trees[Snap(w.rows[k].path)];
       && todo <= src.Keys && dst.Keys == src.Keys - todo
       && forall p :: p in dst ==> dst[p] == src[p]
  }

  lemma CopyStarts(w: World, k: nat)
    requires Copying(w, w, k) && w.trees[Snap(w.rows[k].path)] == map[]
    ensures CopiedExcept(w, k, w.trees[Live(w.rows[k].server)].Keys)
  {
  }

  lemma CopyEnds(w: World, k: nat)
    requires CopiedExcept(w, k, {})
    ensures k < |w.rows| && Snap(w.rows[k].path) in w.trees && Live(w.rows[k].server) in w.trees
    ensures w.trees[Snap(w.rows[k].path)] == w.trees[Live(w.rows[k].server)]
  {
  }

  lemma CopyingAfterEnv(w0: World, w: World, w': World, k: nat, todo: set<string>)
    requires Copying(w0, w, k) && CopiedExcept(w, k, todo) && EnvFrame(w, w')
    ensures Copying(w0, w', k) && CopiedExcept(w', k, todo) && w'.trees.Keys == w.trees.Keys
  {
    EnvIsFramed(w, w');
    FrameTransitive(w0, w, w', {w0.rows[k].path}, {}, {w0.rows[k].path});
  }

  lemma CopyingAfterPlace(w0: World, w: World, k: nat, todo: set<string>, p: string)
    requires Copying(w0, w, k) && CopiedExcept(w, k, todo) && p in todo
    ensures SnapEnabled(w, Place(k, p, w.trees[Live(w.rows[k].server)][p]))
    ensures p in w.trees[Live(w.rows[k].server)] && p !in w.trees[Snap(w.rows[k].path)]
    ensures var w' := ApplySnap(w, Place(k, p, w.trees[Live(w.rows[k].server)][p]));
            Copying(w0, w', k) && CopiedExcept(w', k, todo - {p}) && w'.trees.Keys == w.trees.Keys
  {
    var e := Place(k, p, w.trees[Live(w.rows[k].server)][p]);
    SnapIsFramed(w, e);
    FrameTransitive(w0, w, ApplySnap(w, e), {w0.rows[k].path}, {w0.rows[k].path}, {w0.rows[k].path});
  }

  lemma CopyingFacts(w0: World, w: World, k: nat)
    requires Copying(w0, w, k)
    ensures w.rows == w0.rows && OpenRow(w, k)
    ensures Snap(w.rows[k].path) in w.trees && Live(w.rows[k].server) in w.trees
  {
  }

  lemma KindredRow(c: Contents, w: World, k: nat)
    requires Kindred(c, w) && OpenRow(w, k)
    ensures c.kin(Snap(w.rows[k].path)) == c.kin(Live(w.rows[k].server))
  {
    hide RootOf;
    assert w.rows[k] in w.rows;
  }

  lemma KindredSnapshot(c: Contents, w: World, b: Backup, s: nat)
    requires Kindred(c, w) && b in w.rows && IsSnapshot(b, s)
    ensures c.kin(Snap(b.path)) == c.kin(Live(s))
  {
    hide RootOf;
  }

  /** Whatever name is found for a new snapshot of `s`, it is of the kin of `s`. */
  lemma KindredName(c: Contents, w: World, s: nat, timestamp: string, n: nat)
    requires Kindred(c, w) && s in w.servers
    ensures c.kin(Snap(Candidate(w.servers[s].settings.backupRoot + "/" + timestamp, n))) == c.kin(Live(s))
  {
    var root := w.servers[s].settings.backupRoot;
    assert RootOf(c, root, s);
    if n > 0 {
      var name := timestamp + ("_" + Digits(n));
      assert root + "/" + name == root + "/" + timestamp + "_" + Digits(n);
      assert c.kin(Snap(root + "/" + name)) == c.kin(Live(s));
    }
  }

  predicate LinkKindred(c: Contents, link: Option<string>, s: nat) {
    link.Some? ==> c.kin(Snap(link.value)) == c.kin(Live(s))
  }

  // ----- Sharing -------------------------------------------------------------------------

  /** As far as `dest` has been filled: a file whose metadata is unchanged since snapshot
      `from` is the same inode in both. */
  predicate Shares(fs: Fs, trees: map<Where, Files>, live: Where, dest: Where, from: Where) {
    && live in trees && from in trees && dest in fs.dirs && from in fs.dirs && dest != from && dest.Snap? && from.Snap?
    && forall p :: p in fs.dirs[dest] && p in trees[live] && p in trees[from] && trees[from][p].meta == trees[live][p].meta
         ==> p in fs.dirs[from] && fs.dirs[dest][p] == fs.dirs[from][p]
  }

  predicate SharesLink(fs: Fs, trees: map<Where, Files>, live: Where, dest: Where, link: Option<string>) {
    link.Some? && Snap(link.value) != dest ==> Shares(fs, trees, live, dest, Snap(link.value))
  }

  lemma SharesAtStart(fs: Fs, trees: map<Where, Files>, live: Where, dest: Where, link: Option<string>)
    requires live in trees && dest in fs.dirs && fs.dirs[dest] == map[] && dest.Snap?
    requires link.Some? ==> Snap(link.value) in fs.dirs && Snap(link.value) in trees
    ensures SharesLink(fs, trees, live, dest, link)
  {
  }

  lemma SharesLater(fs: Fs, fs': Fs, trees: map<Where, Files>, trees': map<Where, Files>, live: Where, dest: Where, from: Where)
    requires Shares(fs, trees, live, dest, from) && SameSnaps(fs, fs')
    requires live in trees' && trees'[live] == trees[live] && from in trees' && trees'[from] == trees[from]
    ensures Shares(fs', trees', live, dest, from)
  {
  }

  lemma SharesPlaced(fs: Fs, fs': Fs, trees: map<Where, Files>, trees': map<Where, Files>, live: Where, dest: Where, from: Where, p: string)
    requires Shares(fs, trees, live, dest, from) && Placed(fs, fs', dest, p)
    requires live in trees' && trees'[live] == trees[live] && from in trees' && trees'[from] == trees[from]
    requires p in trees[live] && p in trees[from] && trees[from][p].meta == trees[live][p].meta ==>
               p in fs.dirs[from] && p in fs'.dirs[dest] && fs'.dirs[dest][p] == fs.dirs[from][p]
    ensures Shares(fs', trees', live, dest, from)
  {
  }

  lemma CopyingSees(w0: World, w: World, w': World, k: nat, link: Option<string>)
    requires Copying(w0, w, k) && EnvFrame(w, w') && (link.Some? ==> Snap(link.value) in w.trees)
    ensures k < |w.rows| && Live(w.rows[k].server) in w.trees
    ensures Live(w.rows[k].server) in w'.trees && w'.trees[Live(w.rows[k].server)] == w.trees[Live(w.rows[k].server)]
    ensures link.Some? ==> Snap(link.value) in w'.trees && w'.trees[Snap(link.value)] == w.trees[Snap(link.value)]
  {
  }

  lemma PlaceElsewhere(w: World, k: nat, p: string, f: File, x: Where)
    requires SnapEnabled(w, Place(k, p, f)) && x in w.trees && k < |w.rows| && x != Snap(w.rows[k].path)
    ensures x in ApplySnap(w, Place(k, p, f)).trees && ApplySnap(w, Place(k, p, f)).trees[x] == w.trees[x]
    ensures ApplySnap(w, Place(k, p, f)).rows == w.rows
  {
  }

  /** One file of the transfer.  Other servers run on meanwhile. */
  method CopyFile(a: Appliance, k: nat, link: Option<string>, p: string, ghost w: World, ghost todo: set<string>)
    requires a.Valid() && Copying(w, a.W(), k) && CopiedExcept(a.W(), k, todo) && p in todo && k < |a.rows|
    requires LinkKindred(a.contents, link, a.rows[k].server)
    requires link.Some? ==> Snap(link.value) in a.fs.dirs
    requires SharesLink(a.fs, a.W().trees, Live(a.rows[k].server), Snap(a.rows[k].path), link)
    modifies a
    ensures a.Valid() && Copying(w, a.W(), k) && CopiedExcept(a.W(), k, todo - {p}) && a.rows == old(a.rows)
    ensures a.fs.dirs.Keys == old(a.fs.dirs.Keys) && Only(old(a.log), a.log, {Outside, Snapshotting})
    ensures SharesLink(a.fs, a.W().trees, Live(a.rows[k].server), Snap(a.rows[k].path), link)
  {
    hide Appliance.Valid, Copying, CopiedExcept, SharesLink, Only;
    ghost var log := a.log;
    LetTimePass(a, k, link, w, todo);
    ghost var l1 := a.log;
    PlaceShared(a, k, link, p, w, todo);
    OnlyTransitive(log, l1, a.log, {Outside}, {Snapshotting}, {Outside, Snapshotting});
  }

  method LetTimePass(a: Appliance, k: nat, link: Option<string>, ghost w: World, ghost todo: set<string>)
    requires a.Valid() && Copying(w, a.W(), k) && CopiedExcept(a.W(), k, todo) && k < |a.rows|
    requires link.Some? ==> Snap(link.value) in a.fs.dirs
    requires SharesLink(a.fs, a.W().trees, Live(a.rows[k].server), Snap(a.rows[k].path), link)
    modifies a
    ensures a.Valid() && Copying(w, a.W(), k) && CopiedExcept(a.W(), k, todo) && a.rows == old(a.rows)
    ensures a.fs.dirs.Keys == old(a.fs.dirs.Keys) && Only(old(a.log), a.log, {Outside})
    ensures SharesLink(a.fs, a.W().trees, Live(a.rows[k].server), Snap(a.rows[k].path), link)
  {
    hide Appliance.Valid, Copying, CopiedExcept, EnvFrame, Shares, SameSnaps, Only;
    ghost var w1, fs1 := a.W(), a.fs;
    CopyingFacts(w, w1, k);
    a.Elapse(0.0);
    CopyingSees(w, w1, a.W(), k, link);
    CopyingAfterEnv(w, w1, a.W(), k, todo);
    CopyingFacts(w, a.W(), k);
    if link.Some? && Snap(link.value) != Snap(a.rows[k].path) {
      SharesLater(fs1, a.fs, w1.trees, a.W().trees, Live(a.rows[k].server), Snap(a.rows[k].path), Snap(link.value));
    }
  }

  method PlaceShared(a: Appliance, k: nat, link: Option<string>, p: string, ghost w: World, ghost todo: set<string>)
    requires a.Valid() && Copying(w, a.W(), k) && CopiedExcept(a.W(), k, todo) && p in todo && k < |a.rows|
    requires LinkKindred(a.contents, link, a.rows[k].server)
    requires link.Some? ==> Snap(link.value) in a.fs.dirs
    requires SharesLink(a.fs, a.W().trees, Live(a.rows[k].server), Snap(a.rows[k].path), link)
    modifies a
    ensures a.Valid() && Copying(w, a.W(), k) && CopiedExcept(a.W(), k, todo - {p}) && a.rows == old(a.rows)
    ensures a.fs.dirs.Keys == old(a.fs.dirs.Keys)
    ensures Only(old(a.log), a.log, {Snapshotting})
    ensures SharesLink(a.fs, a.W().trees, Live(a.rows[k].server), Snap(a.rows[k].path), link)
  {
    hide Appliance.Valid, Copying, CopiedExcept, SnapEnabled, ApplySnap, Shares, Placed, Only;
    ghost var w2, fs2 := a.W(), a.fs;
    CopyingFacts(w, w2, k);
    a.Tables();
    KindredRow(a.contents, w2, k);
    CopyingAfterPlace(w, w2, k, todo, p);
    ghost var live, dest := Live(a.rows[k].server), Snap(a.rows[k].path);
    ghost var f := w2.trees[live][p];
    NoneYet(a.log, {Snapshotting});
    OneMore(a.log, a.log, OnSnapshot(Place(k, p, f)), {Snapshotting});
    a.PlaceFile(k, p, link);
    PlaceElsewhere(w2, k, p, f, live);
    if link.Some? && Snap(link.value) != dest {
      SharesApart(fs2, w2.trees, live, dest, Snap(link.value));
      PlaceElsewhere(w2, k, p, f, Snap(link.value));
      SharesPlaced(fs2, a.fs, w2.trees, a.W().trees, live, dest, Snap(link.value), p);
    }
  }

  lemma SharesApart(fs: Fs, trees: map<Where, Files>, live: Where, dest: Where, from: Where)
    requires Shares(fs, trees, live, dest, from)
    ensures dest != from && live in trees && from in trees
  {
  }

  /** What the link source showed; nothing without one. */
  function LinkTree(w: World, link: Option<string>): Files {
    if link.Some? && Snap(link.value) in w.trees then w.trees[Snap(link.value)] else map[]
  }

  lemma RsyncIsQuickCopy(a: Appliance, live: Where, link: Option<string>, s: nat)
    requires a.Valid() && live == Live(s) && live in a.fs.dirs
    requires link.Some? ==> Snap(link.value) in a.fs.dirs
    requires LinkKindred(a.contents, link, s)
    ensures QuickCopy(a.W().trees[live], LinkTree(a.W(), link)) == a.W().trees[live]
  {
    if link.Some? {
      hide QuickCopy, Appliance.Valid;
      a.QuickCopies(live, Snap(link.value));
    }
  }

  lemma CopyingKeepsLive(w0: World, w: World, k: nat)
    requires Copying(w0, w, k)
    ensures Live(w0.rows[k].server) in w0.trees && Live(w0.rows[k].server) in w.trees
    ensures w.trees[Live(w0.rows[k].server)] == w0.trees[Live(w0.rows[k].server)]
  {
  }

  /** `rsync -a --delete [--link-dest link] server_path/ dest/`, with `dest` new and empty.
      It may give up at any point; if it completes, `dest` shows the server's files. */
  method RunRsync(a: Appliance, k: nat, link: Option<string>, completes: bool) returns (ok: bool)
    requires a.Valid() && Copying(a.W(), a.W(), k) && a.W().trees[Snap(a.rows[k].path)] == map[]
    requires link.Some? ==> Snap(link.value) in a.fs.dirs
    requires LinkKindred(a.contents, link, a.rows[k].server)
    modifies a
    ensures a.Valid() && Copying(old(a.W()), a.W(), k) && Only(old(a.log), a.log, {Outside, Snapshotting})
    ensures ok == completes && a.rows == old(a.rows)
    ensures ok ==> a.W().trees[Snap(a.rows[k].path)] == a.W().trees[Live(a.rows[k].server)]
    ensures ok ==> a.W().trees[Snap(a.rows[k].path)]
                   == QuickCopy(old(a.W()).trees[Live(a.rows[k].server)], LinkTree(old(a.W()), link))
    ensures SharesLink(a.fs, a.W().trees, Live(a.rows[k].server), Snap(a.rows[k].path), link)
  {
    hide Appliance.Valid, Copying, CopiedExcept, SharesLink, Only, QuickCopy, LinkKindred;
    ghost var w, log := a.W(), a.log;
    NoneYet(log, {Outside, Snapshotting});
    CopyStarts(w, k);
    CopyingFacts(w, w, k);
    a.KeysShown(Live(a.rows[k].server));
    a.KeysShown(Snap(a.rows[k].path));
    RsyncIsQuickCopy(a, Live(a.rows[k].server), link, a.rows[k].server);
    SharesAtStart(a.fs, w.trees, Live(a.rows[k].server), Snap(a.rows[k].path), link);
    var todo := a.fs.dirs[Live(a.rows[k].server)].Keys;
    while todo != {}
      invariant a.Valid() && Copying(w, a.W(), k) && CopiedExcept(a.W(), k, todo) && a.rows == w.rows
      invariant link.Some? ==> Snap(link.value) in a.fs.dirs
      invariant Only(log, a.log, {Outside, Snapshotting})
      invariant SharesLink(a.fs, a.W().trees, Live(a.rows[k].server), Snap(a.rows[k].path), link)
    {
      var here: bool := *;
      if !completes && here {
        return false;
      }
      var p :| p in todo;
      ghost var l1 := a.log;
      CopyFile(a, k, link, p, w, todo);
      OnlyTransitive(log, l1, a.log, {Outside, Snapshotting}, {Outside, Snapshotting}, {Outside, Snapshotting});
      todo := todo - {p};
    }
    CopyEnds(a.W(), k);
    CopyingKeepsLive(w, a.W(), k);
    return completes;
  }

  // ----- One generation ----------------------------------------------------------------

  /** An id above every id in the table. */
  function NextId(rows: seq<Backup>): (id: nat)
    ensures forall b :: b in rows ==> b.id < id
  {
    if rows == [] then 1
    else var id := NextId(rows[..|rows| - 1]); if rows[|rows| - 1].id < id then id else rows[|rows| - 1].id + 1
  }

  datatype SnapshotResult = Taken(row: Backup) | Raised(left: Option<Backup>)

  /** A new row at the end of the table, later than all others and under a path that had no directory. */
  predicate NewRow(w: World, w': World, s: nat, kind: Kind, row: Backup) {
    && row.server == s && row.means.Rsync? && row.kind == kind
    && w'.rows == w.rows + [row] && Snap(row.path) !in w.trees
    && (forall b :: b in w.rows ==> b.id != row.id && b.created < row.created)
    && w.now < row.created <= w'.now
    && Frame(w, w', {row.path})
  }

  /** Success: a settled snapshot that shows the server's files as they were; failure: at
      most a failed row and the directory it names. */
  ghost predicate Snapshotted(w: World, w': World, s: nat, kind: Kind, r: SnapshotResult) {
    match r
    case Taken(row) =>
      && NewRow(w, w', s, kind, row) && row.status.Done? && Settled(w', row)
      && Live(s) in w.trees && Snap(row.path) in w'.trees && w'.trees[Snap(row.path)] == w.trees[Live(s)]
      && w'.taken == w.taken[row.id := w.trees[Live(s)]] && w'.torn == w.torn - {row.id}
    case Raised(None) => SameBook(w, w') && Frame(w, w', {})
    case Raised(Some(row)) =>
      NewRow(w, w', s, kind, row) && row.status.Failed? && w'.taken == w.taken && w'.torn == w.torn
  }

  /** The timestamp under the server's backup directory, or the first numbered variant of it,
      that names no directory. */
  predicate Named(w: World, s: nat, h: Host, path: string) {
    && s in w.servers && Snap(path) !in w.trees
    && exists k: nat :: k <= |w.trees| && FirstFree(w, w.servers[s].settings.backupRoot + "/" + h.timestamp, k, path)
  }

  predicate FirstFree(w: World, base: string, k: nat, path: string) {
    path == Candidate(base, k) && forall j :: 0 <= j < k ==> Snap(Candidate(base, j)) in w.trees
  }

  /** What decides the outcome of a snapshot: rsync, the server's directory, the transfer. */
  predicate SnapshotOutcome(w: World, s: nat, h: Host, r: SnapshotResult) {
    && (r.Taken? <==> h.rsyncInstalled && Live(s) in w.trees && h.copyCompletes)
    && (r == Raised(None) <==> !(h.rsyncInstalled && Live(s) in w.trees))
    && (r.Taken? ==> Named(w, s, h, r.row.path))
    && (r.Raised? && r.left.Some? ==> Named(w, s, h, r.left.value.path))
  }

  predicate Opened(w: World, w': World, s: nat, kind: Kind, row: Backup) {
    && NewRow(w, w', s, kind, row) && row.status.InProgress?
    && w'.taken == w.taken && w'.torn == w.torn
    && Live(s) in w.trees && Live(s) in w'.trees && w'.trees[Live(s)] == w.trees[Live(s)]
  }

  lemma OpenedAfterEnv(w: World, w1: World, w2: World, s: nat, kind: Kind, row: Backup)
    requires Opened(w, w1, s, kind, row) && EnvFrame(w1, w2) && !HasProcess(w, s)
    ensures Opened(w, w2, s, kind, row) && w2.rows == w1.rows && w2.trees.Keys == w1.trees.Keys
  {
    EnvIsFramed(w1, w2);
    FrameTransitive(w, w1, w2, {row.path}, {}, {row.path});
    FrameKeepsStopped(w, w2, {row.path}, s);
  }

  lemma OpenedAtInsert(w: World, w1: World, s: nat, kind: Kind, row: Backup)
    requires EnvFrame(w, w1) && !HasProcess(w, s) && SnapEnabled(w1, Insert(row))
    requires row.server == s && row.kind == kind && w.now < row.created
    ensures Opened(w, ApplySnap(w1, Insert(row)), s, kind, row)
  {
    EnvIsFramed(w, w1);
    SnapIsFramed(w1, Insert(row));
    FrameTransitive(w, w1, ApplySnap(w1, Insert(row)), {}, {}, {row.path});
  }

  lemma CopyingAtMakeDir(w: World, w1: World, s: nat, kind: Kind, row: Backup)
    requires Intact(w) && Opened(w, w1, s, kind, row) && !HasProcess(w, s)
    requires SnapEnabled(w1, MakeDir(|w.rows|))
    ensures var w2 := ApplySnap(w1, MakeDir(|w.rows|));
            Opened(w, w2, s, kind, row) && Copying(w2, w2, |w.rows|) && w2.trees[Snap(row.path)] == map[]
  {
    var w2 := ApplySnap(w1, MakeDir(|w.rows|));
    SnapIsFramed(w1, MakeDir(|w.rows|));
    FrameTransitive(w, w1, w2, {row.path}, {row.path}, {row.path});
    FrameKeepsStopped(w, w2, {row.path}, s);
    assert forall b :: b in w.rows && b.path == row.path ==> !Settled(w, b);
    forall b | b in w2.rows && b.path == row.path ensures !Settled(w2, b) {
      assert b == row || b in w.rows;
    }
  }

  /** Commit a row in progress. */
  method CommitRow(a: Appliance, s: nat, kind: Kind, path: string) returns (row: Backup)
    requires a.Valid() && s in a.servers && !HasProcess(a.W(), s) && Live(s) in a.fs.dirs && Snap(path) !in a.fs.dirs
    requires a.contents.kin(Snap(path)) == a.contents.kin(Live(s))
    modifies a
    ensures a.Valid() && Opened(old(a.W()), a.W(), s, kind, row) && a.rows == old(a.rows) + [row]
    ensures row.path == path && Snap(path) !in a.fs.dirs && OpenRow(a.W(), |old(a.rows)|)
    ensures row.created == Advance(a.contents, old(a.W()), 0.000001, old(a.future)).now
    ensures Only(old(a.log), a.log, {Outside, Snapshotting})
  {
    hide Appliance.Valid, Appliance.Stored, Opened, Frame, EnvFrame, HasProcess, Kindred, Advance, SameSnaps, Only;
    ghost var w, l0 := a.W(), a.log;
    a.Tables();
    a.Elapse(CLOCK_TICK);
    OnlyMore(l0, a.log, {Outside}, {Outside, Snapshotting});
    FrameKeepsStoppedEnv(w, a.W(), s);
    row := Backup(NextId(a.rows), s, path, Rsync, kind, InProgress, a.now);
    OpenedAtInsert(w, a.W(), s, kind, row);
    OneMore(l0, a.log, OnSnapshot(Insert(row)), {Outside, Snapshotting});
    a.InsertRow(row);
  }

  /** The row, then its directory.  A crash in between leaves the row in progress. */
  method OpenSnapshot(a: Appliance, s: nat, kind: Kind, path: string) returns (row: Backup)
    requires a.Valid() && s in a.servers && !HasProcess(a.W(), s) && Live(s) in a.fs.dirs && Snap(path) !in a.fs.dirs
    requires a.contents.kin(Snap(path)) == a.contents.kin(Live(s))
    modifies a
    ensures a.Valid() && Opened(old(a.W()), a.W(), s, kind, row) && Copying(a.W(), a.W(), |old(a.rows)|)
    ensures a.rows == old(a.rows) + [row] && a.W().trees[Snap(row.path)] == map[] && row.path == path
    ensures Only(old(a.log), a.log, {Outside, Snapshotting})
  {
    hide Appliance.Valid, Appliance.Stored, Opened, Copying, Intact, Frame, EnvFrame, HasProcess, Kindred, Advance, SameSnaps, Only;
    ghost var w, l0 := a.W(), a.log;
    ghost var all: set<Sort> := {Outside, Snapshotting};
    a.Tables();
    row := CommitRow(a, s, kind, path);
    var k := |a.rows| - 1;
    ghost var w1, l1 := a.W(), a.log;
    a.Elapse(0.0);
    OnlyTransitive(l0, l1, a.log, all, {Outside}, all);
    OneMore(l0, a.log, OnSnapshot(MakeDir(k)), all);
    OpenedAfterEnv(w, w1, a.W(), s, kind, row);
    CopyingAtMakeDir(w, a.W(), s, kind, row);
    CopyingFacts(ApplySnap(a.W(), MakeDir(k)), ApplySnap(a.W(), MakeDir(k)), k);
    a.MakeDirectory(k);
  }

  lemma FrameKeepsStoppedEnv(a: World, b: World, s: nat)
    requires EnvFrame(a, b) && !HasProcess(a, s)
    ensures !HasProcess(b, s) && b.rows == a.rows && b.trees.Keys == a.trees.Keys && b.servers == a.servers
  {
  }

  lemma FrameTime(w: World, w': World, ds: set<string>)
    requires Frame(w, w', ds)
    ensures w'.now >= w.now
  {
  }

  lemma ClosedRow(w: World, w1: World, w2: World, w3: World, s: nat, kind: Kind, row: Backup, status: BackupStatus)
    requires Opened(w, w1, s, kind, row) && Copying(w1, w2, |w.rows|)
    requires w3.rows == w2.rows[|w.rows| := row.(status := status)] && Frame(w2, w3, {})
    ensures NewRow(w, w3, s, kind, row.(status := status))
  {
    hide Frame, Settled, HasProcess;
    FrameTransitive(w, w1, w2, {row.path}, {row.path}, {row.path});
    FrameTransitive(w, w2, w3, {row.path}, {}, {row.path});
    FrameTime(w1, w2, {row.path});
    FrameTime(w2, w3, {});
    assert w3.rows == w.rows + [row.(status := status)];
  }

  lemma TakenAtFinish(w: World, w1: World, w2: World, s: nat, kind: Kind, row: Backup)
    requires Opened(w, w1, s, kind, row) && Copying(w1, w2, |w.rows|)
    requires w2.trees[Snap(row.path)] == w2.trees[Live(s)]
    ensures SnapEnabled(w2, Finish(|w.rows|))
    ensures Snapshotted(w, ApplySnap(w2, Finish(|w.rows|)), s, kind, Taken(row.(status := Done)))
  {
    hide Frame;
    var w3 := ApplySnap(w2, Finish(|w.rows|));
    SnapIsFramed(w2, Finish(|w.rows|));
    ClosedRow(w, w1, w2, w3, s, kind, row, Done);
    assert row.(status := Done) in w3.rows;
  }

  lemma RaisedAtFail(w: World, w1: World, w2: World, s: nat, kind: Kind, row: Backup)
    requires Opened(w, w1, s, kind, row) && Copying(w1, w2, |w.rows|)
    ensures SnapEnabled(w2, Fail(|w.rows|))
    ensures Snapshotted(w, ApplySnap(w2, Fail(|w.rows|)), s, kind, Raised(Some(row.(status := Failed))))
  {
    hide Frame;
    var w3 := ApplySnap(w2, Fail(|w.rows|));
    SnapIsFramed(w2, Fail(|w.rows|));
    ClosedRow(w, w1, w2, w3, s, kind, row, Failed);
  }

  /** Among `rows`, `b` is the newest completed snapshot of `s` on disk. */
  predicate NewestOnDisk(rows: seq<Backup>, dirs: set<Where>, s: nat, b: Backup) {
    && b in rows && IsSnapshot(b, s) && OnDisk(dirs, b)
    && forall c :: c in rows && IsSnapshot(c, s) && OnDisk(dirs, c) ==> c.created <= b.created
  }

  /** The new directory shares every file unchanged since the newest snapshot of world `w`,
      unless an old row already named that directory. */
  ghost predicate SharesNewest(w: World, s: nat, path: string, fs: Fs, trees: map<Where, Files>) {
    (forall c :: c in w.rows ==> c.path != path) ==>
      forall b :: NewestOnDisk(w.rows, w.trees.Keys, s, b) ==> Shares(fs, trees, Live(s), Snap(path), Snap(b.path))
  }

  lemma NewestIsLink(w: World, w1: World, s: nat, kind: Kind, row: Backup, last: Option<Backup>, b: Backup)
    requires Ledger(w) && Opened(w, w1, s, kind, row) && NewestOnDisk(w.rows, w.trees.Keys, s, b)
    requires forall c :: c in w.rows ==> c.path != row.path
    requires last.Some? ==> last.value in w1.rows && IsSnapshot(last.value, s) && OnDisk(w1.trees.Keys, last.value)
    requires forall c :: c in w1.rows && IsSnapshot(c, s) && OnDisk(w1.trees.Keys, c) ==>
               last.Some? && c.created <= last.value.created
    ensures last == Some(b)
  {
    assert b in w1.rows && Snap(b.path) in w1.trees;
    assert last.value in w.rows && Snap(last.value.path) in w.trees;
    SameMoment(w.rows, b, last.value);
  }

  lemma SameMoment(rows: seq<Backup>, a: Backup, b: Backup)
    requires Ordered(rows) && a in rows && b in rows && a.created == b.created
    ensures a == b
  {
    var i :| 0 <= i < |rows| && rows[i] == a;
    var j :| 0 <= j < |rows| && rows[j] == b;
  }

  lemma SharesNewestByLink(w: World, w1: World, s: nat, kind: Kind, row: Backup, last: Option<Backup>, fs: Fs, trees: map<Where, Files>)
    requires Ledger(w) && Opened(w, w1, s, kind, row)
    requires last.Some? ==> last.value in w1.rows && IsSnapshot(last.value, s) && OnDisk(w1.trees.Keys, last.value)
    requires forall c :: c in w1.rows && IsSnapshot(c, s) && OnDisk(w1.trees.Keys, c) ==>
               last.Some? && c.created <= last.value.created
    requires SharesLink(fs, trees, Live(s), Snap(row.path), if last.Some? then Some(last.value.path) else None)
    ensures SharesNewest(w, s, row.path, fs, trees)
  {
    hide Opened, Shares, IsSnapshot, OnDisk, Ledger;
    if forall c :: c in w.rows ==> c.path != row.path {
      forall b | NewestOnDisk(w.rows, w.trees.Keys, s, b) ensures Shares(fs, trees, Live(s), Snap(row.path), Snap(b.path)) {
        NewestIsLink(w, w1, s, kind, row, last, b);
        assert b in w.rows;
      }
    }
  }

  /** Fill the new directory, linking from the last good snapshot, and record the outcome. */
  method FillSnapshot(a: Appliance, s: nat, kind: Kind, row: Backup, completes: bool, ghost w: World)
    returns (r: SnapshotResult)
    requires a.Valid() && a.rows == w.rows + [row] && row.server == s && Ledger(w)
    requires Opened(w, a.W(), s, kind, row) && Copying(a.W(), a.W(), |w.rows|)
    requires a.W().trees[Snap(row.path)] == map[]
    modifies a
    ensures a.Valid() && Snapshotted(w, a.W(), s, kind, r)
    ensures r == if completes then Taken(row.(status := Done)) else Raised(Some(row.(status := Failed)))
    ensures r.Taken? ==> SharesNewest(w, s, row.path, a.fs, a.W().trees)
    ensures Only(old(a.log), a.log, {Outside, Snapshotting})
  {
    hide Appliance.Valid, Only, Opened, Copying, Snapshotted, Frame, EnvFrame, SnapEnabled, ApplySnap, HasProcess, Kindred;
    a.Tables();
    var last := LastSuccessfulSnapshot(a.rows, a.fs.dirs.Keys, s);
    var link := if last.Some? then Some(last.value.path) else None;
    var k := |a.rows| - 1;
    ghost var w1, log := a.W(), a.log;
    assert log == old(a.log);
    assert a.rows[k] == row && (link.Some? ==> Snap(link.value) in a.fs.dirs);
    if last.Some? {
      KindredSnapshot(a.contents, a.W(), last.value, s);
    }
    var ok := RunRsync(a, k, link, completes);
    OneMore(log, a.log, OnSnapshot(Fail(k)), {Outside, Snapshotting});
    OneMore(log, a.log, OnSnapshot(Finish(k)), {Outside, Snapshotting});
    CopyingFacts(w1, a.W(), k);
    if !ok {
      RaisedAtFail(w, w1, a.W(), s, kind, row);
      a.FailRow(k);
      return Raised(Some(row.(status := Failed)));
    }
    TakenAtFinish(w, w1, a.W(), s, kind, row);
    SharesNewestByLink(w, w1, s, kind, row, last, a.fs, a.W().trees);
    ghost var w2 := a.W();
    a.FinishRow(k);
    FinishKeepsTrees(w2, k);
    return Taken(row.(status := Done));
  }

  lemma FinishKeepsTrees(w: World, k: nat)
    requires SnapEnabled(w, Finish(k))
    ensures ApplySnap(w, Finish(k)).trees == w.trees
  {
  }

  /** One rsync generation of a stopped server: row in progress, then `Done` or `Failed`. */
  method PerformSnapshot(a: Appliance, s: nat, kind: Kind, h: Host) returns (r: SnapshotResult)
    requires a.Valid() && s in a.servers && !HasProcess(a.W(), s)
    modifies a
    ensures a.Valid() && Snapshotted(old(a.W()), a.W(), s, kind, r) && SnapshotOutcome(old(a.W()), s, h, r)
    ensures r.Taken? ==> SharesNewest(old(a.W()), s, r.row.path, a.fs, a.W().trees)
    ensures Only(old(a.log), a.log, {Outside, Snapshotting})
  {
    hide Candidate, Named, SharesNewest, Appliance.Valid, Only, Opened, Copying, Snapshotted, Frame, EnvFrame, SnapEnabled, ApplySnap, HasProcess, Kindred;
    ghost var w, log := a.W(), a.log;
    RaisedAtOnce(w, s, kind);
    a.Tables();
    NoneYet(log, {Outside, Snapshotting});
    if !h.rsyncInstalled || Live(s) !in a.fs.dirs {
      return Raised(None);
    }
    var path, n := FreshName(a.fs, a.servers[s].settings.backupRoot + "/" + h.timestamp);
    NamedAt(w, s, h, path, n);
    KindredName(a.contents, w, s, h.timestamp, n);
    var row := OpenSnapshot(a, s, kind, path);
    OpenedFacts(w, a.W(), s, kind, row);
    ghost var l1 := a.log;
    r := FillSnapshot(a, s, kind, row, h.copyCompletes, w);
    OnlyTransitive(log, l1, a.log, {Outside, Snapshotting}, {Outside, Snapshotting}, {Outside, Snapshotting});
  }

  lemma NamedAt(w: World, s: nat, h: Host, path: string, n: nat)
    requires s in w.servers && Snap(path) !in w.trees && n <= |w.trees|
    requires FirstFree(w, w.servers[s].settings.backupRoot + "/" + h.timestamp, n, path)
    ensures Named(w, s, h, path)
  {
  }

  lemma RaisedAtOnce(w: World, s: nat, kind: Kind)
    ensures Snapshotted(w, w, s, kind, Raised(None))
  {
  }

  lemma OpenedFacts(w: World, w': World, s: nat, kind: Kind, row: Backup)
    requires Opened(w, w', s, kind, row)
    ensures w'.rows == w.rows + [row] && row.server == s
  {
  }
}
