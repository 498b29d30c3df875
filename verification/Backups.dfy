/** Stop-aware backups. */
module Backups {
  import opened Options
  import opened Hardlinks
  import opened Worlds
  import opened Environments
  import opened Appliances
  import opened Hosts
  import opened Lifecycle
  import opened Naming
  import opened Snapshots
  import opened Retention

  datatype BackupReport =
    | Aborted(stop: StopReport)
    | Ran(wasRunning: bool, result: SnapshotResult, restart: Option<StartReport>)

  /** The rows retention removes once `row` has been added for server `s`. */
  function Victims(rows: seq<Backup>, s: nat, kind: Kind, keep: int, row: Backup): seq<Backup> {
    if kind.Normal? then Expired(rows + [row], s, keep) else []
  }

  /** The rows that retention will remove once a generation is added: all of the server's
      generations but the newest `keep - 1`. */
  function Doomed(rows: seq<Backup>, s: nat, keep: int): seq<Backup> {
    var g := Generations(rows, s);
    if keep <= 0 || |g| < keep then [] else g[..|g| - keep + 1]
  }

  lemma ExpiredByNew(rows: seq<Backup>, s: nat, keep: int, row: Backup)
    requires IsGeneration(row, s)
    ensures Expired(rows + [row], s, keep) == Doomed(rows, s, keep)
  {
    hide Generations;
    GenerationsSnoc(rows, row, s);
    var g := Generations(rows, s);
    assert keep > 0 && |g| >= keep ==> (g + [row])[..|g| + 1 - keep] == g[..|g| - keep + 1];
  }

  /** A new snapshot at `path` is safe from the retention that follows it. */
  predicate Spared(rows: seq<Backup>, s: nat, kind: Kind, keep: int, path: string) {
    kind.Normal? ==> path !in PathsOf(Doomed(rows, s, keep))
  }

  lemma SparedFromNew(rows: seq<Backup>, s: nat, keep: int, row: Backup)
    requires IsGeneration(row, s)
    ensures Spared(rows, s, Normal, keep, row.path) <==> row.path !in PathsOf(Expired(rows + [row], s, keep))
  {
    ExpiredByNew(rows, s, keep, row);
  }

  lemma SoleClaimIsSpared(rows: seq<Backup>, s: nat, kind: Kind, keep: int, path: string)
    requires forall b :: b in rows ==> b.path != path
    ensures Spared(rows, s, kind, keep, path)
  {
    forall b | b in Doomed(rows, s, keep) ensures b.path != path {
      assert b in Generations(rows, s);
    }
  }

  /** What snapshot and retention together make of a stopped server `s`. */
  ghost predicate BackedUp(w: World, w': World, s: nat, kind: Kind, keep: int, h: Host, r: SnapshotResult) {
    && SnapshotOutcome(w, s, h, r)
    && match r
       case Raised(_) => Snapshotted(w, w', s, kind, r)
       case Taken(row) => Kept(w, w', s, kind, keep, h, row)
  }

  /** The new row is there and the rows retention removes are gone, their directories too if
      every removal completed. */
  ghost predicate Kept(w: World, w': World, s: nat, kind: Kind, keep: int, h: Host, row: Backup) {
    var victims := Victims(w.rows, s, kind, keep, row);
    && IsSnapshot(row, s) && row.kind == kind && w.now < row.created <= w'.now && row in w'.rows
    && Ordered(w.rows + [row])
    && w'.rows == Without(w.rows + [row], IdsOf(victims))
    && Frame(w, w', {row.path} + PathsOf(victims)) && Live(s) in w.trees
    && (h.removalCompletes ==> Gone(w', PathsOf(victims)))
    && (Spared(w.rows, s, kind, keep, row.path) ==>
          && Settled(w', row) && row.id in w'.taken && w'.taken[row.id] == w.trees[Live(s)]
          && Snap(row.path) in w'.trees && w'.trees[Snap(row.path)] == w.trees[Live(s)])
  }

  lemma NewRowFacts(w: World, w1: World, s: nat, kind: Kind, row: Backup)
    requires Ledger(w1) && Snapshotted(w, w1, s, kind, Taken(row))
    ensures w1.rows == w.rows + [row] && Ordered(w.rows + [row]) && Frame(w, w1, {row.path}) && Live(s) in w.trees
    ensures IsSnapshot(row, s) && IsGeneration(row, s) == kind.Normal? && row.kind == kind
    ensures w.now < row.created <= w1.now && Settled(w1, row)
    ensures row.id in w1.taken && w1.taken[row.id] == w.trees[Live(s)]
  {
    hide Frame;
  }

  lemma PrunedFacts(w: World, w': World, s: nat, keep: int, completes: bool, row: Backup)
    requires Pruned(w, w', s, keep, completes) && row in w.rows && row.id !in IdsOf(Expired(w.rows, s, keep))
    ensures w'.rows == Without(w.rows, IdsOf(Expired(w.rows, s, keep))) && row in w'.rows && w.now <= w'.now
    ensures Frame(w, w', PathsOf(Expired(w.rows, s, keep)))
    ensures completes ==> Gone(w', PathsOf(Expired(w.rows, s, keep)))
  {
    hide Expired, IdsOf, PathsOf, Gone, Settled;
  }

  lemma KeptByPrune(w: World, w1: World, w2: World, s: nat, keep: int, h: Host, row: Backup)
    requires Ledger(w1) && Intact(w2) && Snapshotted(w, w1, s, Normal, Taken(row))
    requires Pruned(w1, w2, s, keep, h.removalCompletes)
    ensures Kept(w, w2, s, Normal, keep, h, row)
  {
    hide *;
    NewRowFacts(w, w1, s, Normal, row);
    NewestIsKept(w.rows, s, keep, row);
    SparedFromNew(w.rows, s, keep, row);
    PrunedFacts(w1, w2, s, keep, h.removalCompletes, row);
    var ds := PathsOf(Expired(w1.rows, s, keep));
    FrameTransitive(w, w1, w2, {row.path}, ds, {row.path} + ds);
    if row.path !in ds {
      PrunedSparesNew(w1, w2, s, keep, h.removalCompletes, row);
    }
    KeptFrom(w, w2, s, keep, h, row);
  }

  lemma KeptFrom(w: World, w': World, s: nat, keep: int, h: Host, row: Backup)
    requires IsSnapshot(row, s) && row.kind.Normal? && w.now < row.created <= w'.now && row in w'.rows
    requires Ordered(w.rows + [row]) && w'.rows == Without(w.rows + [row], IdsOf(Expired(w.rows + [row], s, keep)))
    requires Frame(w, w', {row.path} + PathsOf(Expired(w.rows + [row], s, keep))) && Live(s) in w.trees
    requires h.removalCompletes ==> Gone(w', PathsOf(Expired(w.rows + [row], s, keep)))
    requires Spared(w.rows, s, Normal, keep, row.path) ==>
               && Settled(w', row) && row.id in w'.taken && w'.taken[row.id] == w.trees[Live(s)]
               && Snap(row.path) in w'.trees && w'.trees[Snap(row.path)] == w.trees[Live(s)]
    ensures Kept(w, w', s, Normal, keep, h, row)
  {
    hide Expired, IdsOf, PathsOf, Frame, Gone, Spared, Ordered, Settled, Without, IsSnapshot;
  }

  lemma PrunedSparesNew(w1: World, w2: World, s: nat, keep: int, completes: bool, row: Backup)
    requires Pruned(w1, w2, s, keep, completes) && Intact(w2) && Settled(w1, row) && row.id in w1.taken
    requires row.id !in IdsOf(Expired(w1.rows, s, keep)) && row.path !in PathsOf(Expired(w1.rows, s, keep))
    ensures Settled(w2, row) && row.id in w2.taken && w2.taken[row.id] == w1.taken[row.id]
    ensures Snap(row.path) in w2.trees && w2.trees[Snap(row.path)] == w1.taken[row.id]
  {
    hide Expired, IdsOf, PathsOf, Frame, Without, Gone;
  }

  lemma KeptAsIs(w: World, w1: World, s: nat, keep: int, h: Host, row: Backup)
    requires Ledger(w1) && Snapshotted(w, w1, s, PreRestore, Taken(row))
    ensures Kept(w, w1, s, PreRestore, keep, h, row)
  {
    WithoutNone(w1.rows, IdsOf([]));
    assert PathsOf([]) == {};
    assert {row.path} + PathsOf([]) == {row.path};
  }

  /** When its removals complete, a backup that went through has left its snapshot on disk if
      and only if no row that retention was to remove named the new directory. */
  lemma KeptIff(w: World, w': World, s: nat, kind: Kind, keep: int, h: Host, row: Backup)
    requires Kept(w, w', s, kind, keep, h, row) && h.removalCompletes
    ensures (Snap(row.path) in w'.trees && w'.trees[Snap(row.path)] == w.trees[Live(s)])
            <==> Spared(w.rows, s, kind, keep, row.path)
    ensures Snap(row.path) in w'.trees <==> Spared(w.rows, s, kind, keep, row.path)
  {
    if kind.Normal? {
      SparedFromNew(w.rows, s, keep, row);
    }
    hide Expired, Doomed, PathsOf, IdsOf, Frame, Without, Settled;
  }

  /** The name is known before the call: it is the one `Named` allows. */
  lemma NamedOnce(w: World, s: nat, h: Host, p: string, q: string)
    requires Named(w, s, h, p) && Named(w, s, h, q)
    ensures p == q
  {
    hide Candidate;
    var base := w.servers[s].settings.backupRoot + "/" + h.timestamp;
    var j: nat :| FirstFree(w, base, j, p);
    var k: nat :| FirstFree(w, base, k, q);
    FirstFreeOnce(w, base, j, p, k, q);
  }

  lemma FirstFreeOnce(w: World, base: string, j: nat, p: string, k: nat, q: string)
    requires FirstFree(w, base, j, p) && FirstFree(w, base, k, q) && Snap(p) !in w.trees && Snap(q) !in w.trees
    ensures p == q
  {
  }

  /** So a caller can tell beforehand whether the backup will last. */
  lemma BackupLastsIff(w: World, w': World, s: nat, kind: Kind, keep: int, h: Host, row: Backup, path: string)
    requires BackedUp(w, w', s, kind, keep, h, Taken(row)) && h.removalCompletes && Named(w, s, h, path)
    ensures Snap(path) in w'.trees <==> Spared(w.rows, s, kind, keep, path)
  {
    hide Kept, Named, Spared;
    NamedOnce(w, s, h, row.path, path);
    KeptIff(w, w', s, kind, keep, h, row);
  }

  lemma BackedUpIsKept(w: World, w': World, s: nat, kind: Kind, keep: int, h: Host, row: Backup)
    requires BackedUp(w, w', s, kind, keep, h, Taken(row))
    ensures Kept(w, w', s, kind, keep, h, row)
  {
    hide Kept;
  }

  lemma KeptAddsNoMore(w: World, w': World, s: nat, kind: Kind, keep: int, h: Host, row: Backup)
    requires Kept(w, w', s, kind, keep, h, row) && !HasProcess(w, s)
    ensures forall b :: b in w'.rows ==> b in w.rows || b == row
    ensures h.removalCompletes ==> forall d :: Snap(d) in w'.trees ==> Snap(d) in w.trees || d == row.path
    ensures Live(s) in w.trees && Live(s) in w'.trees && w'.trees[Live(s)] == w.trees[Live(s)]
  {
    hide Victims, PathsOf, IdsOf, Settled, Spared, HasProcess, Ordered;
  }

  lemma KeptSpared(w: World, w': World, s: nat, kind: Kind, keep: int, h: Host, row: Backup)
    requires Kept(w, w', s, kind, keep, h, row)
    ensures IsSnapshot(row, s)
    ensures Spared(w.rows, s, kind, keep, row.path) ==>
              && Settled(w', row) && Live(s) in w.trees
              && Snap(row.path) in w'.trees && w'.trees[Snap(row.path)] == w.trees[Live(s)]
  {
    hide Victims, PathsOf, IdsOf, Settled, Spared, HasProcess, Ordered, Frame;
  }

  /** And it may not: when the removal of an old generation was cut off before its commit, and
      the timestamp comes again, the new snapshot takes the old row's directory and is removed
      with it. */
  lemma BackupCanBeLost(settings: Settings, files: Files, h: Host) returns (w: World, ls: seq<Label>)
    requires settings.keepGenerations == 1
    ensures var path, w' := settings.backupRoot + "/" + h.timestamp, Exec(w, ls);
            && Inv(w) && Owned(w) && Legal(w, ls) && ls == [Removal(RemoveDir(path))]
            && 1 in w'.servers && w'.servers[1] == Server(None, Stopped, None, settings)
            && w'.trees == map[Live(1) := files] && w'.procs == map[]
            && Named(w', 1, h, path) && !Spared(w'.rows, 1, Normal, settings.keepGenerations, path)
  {
    var path := settings.backupRoot + "/" + h.timestamp;
    var b := Backup(1, 1, path, Rsync, Normal, Done, 0.0);
    w := World(map[1 := Server(None, Stopped, None, settings)], map[], map[Live(1) := files, Snap(path) := map[]],
               [b], 0.0, [], map[1 := map[]], {});
    var step := Removal(RemoveDir(path));
    ls := [] + [step];
    LostWorld(w, b, path);
    assert Legal(w, []) && Exec(w, []) == w;
    RunSnoc(w, [], step);
    assert Apply(w, step).trees == map[Live(1) := files];
    LostRow(Apply(w, step), b, settings, h);
  }

  lemma LostRow(w: World, b: Backup, settings: Settings, h: Host)
    requires w.rows == [b] && IsGeneration(b, 1) && 1 in w.servers && w.servers[1].settings == settings
    requires b.path == settings.backupRoot + "/" + h.timestamp && settings.keepGenerations == 1 && Snap(b.path) !in w.trees
    ensures Named(w, 1, h, b.path) && !Spared(w.rows, 1, Normal, 1, b.path)
  {
    assert FirstFree(w, b.path, 0, b.path);
    assert Generations([b][..0], 1) == [] && Generations([b], 1) == [b];
    assert b in Doomed([b], 1, 1);
  }

  lemma LostWorld(w: World, b: Backup, path: string)
    requires w.rows == [b] && w.procs == map[] && w.now == b.created && b.id == 1 && b.path == path
    requires w.taken == map[1 := map[]] && Snap(path) in w.trees && w.trees[Snap(path)] == map[] && w.torn == {}
    ensures Inv(w) && Owned(w)
  {
  }

  /** After a successful normal backup the server's generations are exactly the newest
      `keep` of them, the new one included and last; every row that is not one of this
      server's generations is still there, and nothing was added but the new one. */
  lemma BackupKeepsNewest(w: World, w': World, s: nat, keep: int, h: Host, row: Backup)
    requires Kept(w, w', s, Normal, keep, h, row) && keep >= 1
    ensures var g, kept := Generations(w.rows + [row], s), Generations(w'.rows, s);
            && kept == g[|g| - (if |g| <= keep then |g| else keep)..]
            && |kept| > 0 && kept[|kept| - 1] == row
    ensures forall b :: b in w.rows && !IsGeneration(b, s) ==> b in w'.rows
    ensures forall b :: b in w'.rows ==> b in w.rows || b == row
  {
    var all := w.rows + [row];
    hide Expired, Without, IdsOf, Frame, Generations, IsGeneration, Settled, Spared, Gone;
    RetentionKeepsNewest(all, s, keep);
    RowIsLast(w.rows, row, s);
  }

  lemma RowIsLast(rows: seq<Backup>, row: Backup, s: nat)
    requires IsGeneration(row, s)
    ensures var g := Generations(rows + [row], s); |g| > 0 && g[|g| - 1] == row
  {
    GenerationsSnoc(rows, row, s);
  }

  /** The same, told from the rows' own fields; a backup of any outcome keeps every row that is
      of another server, zip, pre-restore, failed or still in progress. */
  lemma BackupRetains(w: World, w': World, s: nat, kind: Kind, keep: int, h: Host, r: SnapshotResult)
    requires BackedUp(w, w', s, kind, keep, h, r) && Ordered(w.rows)
    ensures forall b :: b in w.rows && (b.server != s || b.means.Zip? || b.kind.PreRestore? || !b.status.Done?) ==>
              b in w'.rows
    ensures forall b :: b in w'.rows ==> b in w.rows || (b.server == s && b.kind == kind)
    ensures r.Taken? && kind.Normal? && keep >= 1 ==> Retained(w.rows + [r.row], w'.rows, s, keep)
    ensures r.Taken? && !(kind.Normal? && keep >= 1) ==> w'.rows == w.rows + [r.row]
  {
    hide Expired, Without, IdsOf, Frame, Generations, IsGeneration, Settled, Spared, Gone, Finished, Retained, Ordered,
      SnapshotOutcome, PathsOf;
    if r.Taken? {
      BackedUpIsKept(w, w', s, kind, keep, h, r.row);
      assert Ordered(w.rows + [r.row]);
      OthersStay(w.rows + [r.row], s, keep);
      if kind.Normal? && keep >= 1 {
        RetentionRetains(w.rows + [r.row], s, keep);
      } else {
        NoVictims(w.rows, s, kind, keep, r.row);
        WithoutNone(w.rows + [r.row], {});
      }
    }
  }

  lemma NoVictims(rows: seq<Backup>, s: nat, kind: Kind, keep: int, row: Backup)
    requires !(kind.Normal? && keep >= 1)
    ensures IdsOf(Victims(rows, s, kind, keep, row)) == {}
  {
    hide Generations;
  }

  /** Snapshot and, for a normal backup that succeeded, prune. */
  method SnapshotAndPrune(a: Appliance, s: nat, kind: Kind, h: Host) returns (r: SnapshotResult)
    requires a.Valid() && s in a.servers && !HasProcess(a.W(), s)
    modifies a
    ensures a.Valid() && BackedUp(old(a.W()), a.W(), s, kind, old(a.servers[s].settings.keepGenerations), h, r)
    ensures Only(old(a.log), a.log, {Outside, Snapshotting, Removing}) && a.servers == old(a.servers)
    ensures !HasProcess(a.W(), s)
  {
    hide SharesNewest, DropsLast, Clears;
    hide Appliance.Valid, Only, Snapshotted, SnapshotOutcome, Kept, Pruned, Frame, HasProcess;
    ghost var w, log := a.W(), a.log;
    var keep := a.servers[s].settings.keepGenerations;
    r := PerformSnapshot(a, s, kind, h);
    ghost var w1, l1 := a.W(), a.log;
    OnlyMore(log, l1, {Outside, Snapshotting}, {Outside, Snapshotting, Removing});
    a.Tables();
    if r.Taken? {
      if kind.Normal? {
        SnapshottedKeepsServers(w, w1, s, kind, r);
        PruneGenerations(a, s, h.removalCompletes);
        a.Tables();
        OnlyTransitive(log, l1, a.log, {Outside, Snapshotting}, {Outside, Removing}, {Outside, Snapshotting, Removing});
        KeptByPrune(w, w1, a.W(), s, keep, h, r.row);
      } else {
        KeptAsIs(w, w1, s, keep, h, r.row);
      }
    }
    BackedUpKeepsServers(w, a.W(), s, kind, keep, h, r);
  }

  lemma SnapshottedKeepsServers(w: World, w': World, s: nat, kind: Kind, r: SnapshotResult)
    requires Snapshotted(w, w', s, kind, r)
    ensures w'.servers == w.servers
  {
  }

  lemma BackedUpKeepsServers(w: World, w': World, s: nat, kind: Kind, keep: int, h: Host, r: SnapshotResult)
    requires BackedUp(w, w', s, kind, keep, h, r) && !HasProcess(w, s)
    ensures w'.servers == w.servers && !HasProcess(w', s)
  {
    match r
    case Taken(row) => FrameKeepsStopped(w, w', {row.path} + PathsOf(Victims(w.rows, s, kind, keep, row)), s);
    case Raised(None) => FrameKeepsStopped(w, w', {}, s);
    case Raised(Some(row)) => FrameKeepsStopped(w, w', {row.path}, s);
  }

  /** Stop a running server, take the snapshot, prune, and start it again if it had been
      running.  `still` is the world after the stop, `ready` the world before the restart. */
  method BackupNow(a: Appliance, s: nat, kind: Kind, h: Host)
    returns (r: BackupReport, ghost stop: StopReport, ghost still: World, ghost ready: World)
    requires a.Valid() && s in a.servers
    modifies a
    ensures a.Valid() && s in a.servers
    // A server is stopped if and only if it is found running, and then down the ladder.
    ensures r.Aborted? || r.wasRunning <==> FoundAlive(a.contents, old(a.W()), s, old(a.future))
    ensures r.Aborted? || r.wasRunning ==> ByLadder(old(a.W()), still, s, h, stop)
    ensures r.Aborted? || r.wasRunning ==>
              var e := ConfirmedFrom(a.contents, Refreshed(a.contents, old(a.W()), s, old(a.future)), s, h,
                                     AfterLook(old(a.W()), s, old(a.future)));
              stop == e.report && still == e.at.world
    ensures r.Aborted? ==> r.stop == stop && a.W() == still
    ensures r.Ran? && !r.wasRunning ==> still == Refreshed(a.contents, old(a.W()), s, old(a.future))
    // An abort adds no row and no directory, and leaves the row running under its pid.
    ensures r.Aborted? ==> StopFrame(old(a.W()), a.W(), s) && Only(old(a.log), a.log, {Outside, RowKeeping, Terming})
    ensures r.Aborted? ==> a.servers[s].status.Running? && a.servers[s].pid == old(a.servers[s].pid) && HasProcess(a.W(), s)
    // The snapshot is of a stopped server.
    ensures r.Ran? ==> StopFrame(old(a.W()), still, s) && RowStopped(still, s)
    ensures r.Ran? ==> BackedUp(still, ready, s, kind, old(a.servers[s].settings.keepGenerations), h, r.result)
    // A start is attempted exactly when a running server was stopped, whatever came of the snapshot.
    ensures r.Ran? ==> (r.restart.Some? <==> r.wasRunning)
    ensures r.Ran? && r.wasRunning ==> StartFrame(ready, a.W(), s, r.restart.value)
    ensures r.Ran? && r.wasRunning ==> StartOutcome(a.W(), s, h, r.restart.value) && !r.restart.value.AlreadyRunning?
    ensures r.Ran? && r.wasRunning ==>
              LaunchesLast(old(a.log), a.log, s, {Outside, RowKeeping, Terming, Snapshotting, Removing}, r.restart.value)
    // What is not a finished generation of this server stays, and the newest of those that are.
    ensures forall b :: b in old(a.rows) && (b.server != s || b.means.Zip? || b.kind.PreRestore? || !b.status.Done?) ==>
              b in a.rows
    ensures forall b :: b in a.rows ==> b in old(a.rows) || (b.server == s && b.kind == kind)
    ensures r.Ran? && r.result.Taken? && kind.Normal? && old(a.servers[s].settings.keepGenerations) >= 1 ==>
              Retained(old(a.rows) + [r.result.row], a.rows, s, old(a.servers[s].settings.keepGenerations))
    // A server without a process is never started.
    ensures r.Ran? && !r.wasRunning ==> a.W() == ready && RowStopped(a.W(), s)
    ensures r.Ran? && !r.wasRunning ==> Only(old(a.log), a.log, {Outside, RowKeeping, Snapshotting, Removing})
    ensures !old(HasProcess(a.W(), s)) ==> r.Ran? && !r.wasRunning
  {
    hide Appliance.Valid, Only, StopFrame, StartFrame, StartOutcome, BackedUp, EnvFrame, HasProcess;
    hide Retained, Finished, Ordered;
    hide Appliance.Stored, FoundAlive, Refreshed, AfterLook, Advance, StartedFrom, LaunchesLast, ByLadder, ConfirmedFrom;
    stop := NotRunning;
    ghost var w, log := a.W(), a.log;
    a.Tables();
    StopKeepsRows(w, w, s);
    var status := RefreshStatus(a, s);
    StopKeepsRows(w, a.W(), s);
    StopFrameSettings(w, a.W(), s);
    StoppedStays(w, a.W(), s);
    var wasRunning := status.Running?;
    ghost var w1, l0 := a.W(), a.log;
    if wasRunning {
      var failed;
      failed, stop := StopConfirmed(a, s, h);
      StopFrameTransitive(w, w1, a.W(), s);
      StopKeepsRows(w, a.W(), s);
      LadderWithin(w, w1, a.W(), a.W(), s, h, stop);
      OnlyTransitive(log, l0, a.log, {Outside, RowKeeping}, {Outside, RowKeeping, Terming}, {Outside, RowKeeping, Terming});
      if failed.Some? {
        return Aborted(failed.value), stop, a.W(), a.W();
      }
    }
    still := a.W();
    StopFrameSettings(w, still, s);
    ghost var l1 := a.log;
    var result := SnapshotAndPrune(a, s, kind, h);
    ready := a.W();
    BackupRetains(still, ready, s, kind, a.servers[s].settings.keepGenerations, h, result);
    ghost var quiet: set<Sort> := {Outside, RowKeeping, Snapshotting, Removing};
    ghost var all: set<Sort> := {Outside, RowKeeping, Terming, Snapshotting, Removing};
    if !wasRunning {
      OnlyTransitive(log, l1, a.log, {Outside, RowKeeping}, {Outside, Snapshotting, Removing}, quiet);
      return Ran(false, result, None), stop, still, ready;
    }
    OnlyTransitive(log, l1, a.log, {Outside, RowKeeping, Terming}, {Outside, Snapshotting, Removing}, all);
    ghost var l2 := a.log;
    var start := StartServer(a, s, h);
    LaunchesAfter(log, l2, a.log, s, all, start);
    StartKeepsRows(ready, a.W(), s, start);
    return Ran(true, result, Some(start)), stop, still, ready;
  }

  lemma StopKeepsRows(w: World, w': World, s: nat)
    ensures StopFrame(w, w', s) ==> w'.rows == w.rows
    ensures Ledger(w) ==> Ordered(w.rows)
  {
  }

  lemma StartKeepsRows(w: World, w': World, s: nat, r: StartReport)
    requires StartFrame(w, w', s, r)
    ensures w'.rows == w.rows
  {
  }

  lemma LaunchIsOnly(before: seq<Label>, after: seq<Label>, s: nat, sorts: set<Sort>, r: StartReport, more: set<Sort>)
    requires LaunchesLast(before, after, s, sorts, r) && sorts <= more && Launching in more
    ensures Only(before, after, more)
  {
    if r.Started? {
      assert after[|after| - 2..][0] == after[|after| - 2] && after[|after| - 2..][1] == after[|after| - 1];
    }
  }

  lemma BackupLabels(before: seq<Label>, after: seq<Label>, s: nat, r: BackupReport)
    requires r.Aborted? ==> Only(before, after, {Outside, RowKeeping, Terming})
    requires r.Ran? ==> (r.restart.Some? <==> r.wasRunning)
    requires r.Ran? && r.wasRunning ==>
               LaunchesLast(before, after, s, {Outside, RowKeeping, Terming, Snapshotting, Removing}, r.restart.value)
    requires r.Ran? && !r.wasRunning ==> Only(before, after, {Outside, RowKeeping, Snapshotting, Removing})
    ensures Only(before, after, {Outside, RowKeeping, Terming, Launching, Snapshotting, Removing})
  {
    if r.Ran? && r.wasRunning {
      LaunchIsOnly(before, after, s, {Outside, RowKeeping, Terming, Snapshotting, Removing}, r.restart.value,
                   {Outside, RowKeeping, Terming, Launching, Snapshotting, Removing});
    }
  }
}
