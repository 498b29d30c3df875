/** Decisions that take a backup only when the last one is old enough. */
module StartGate {
  import opened Options
  import opened Hardlinks
  import opened Worlds
  import opened Runs
  import opened Environments
  import opened Appliances
  import opened Hosts
  import opened Lifecycle
  import opened Naming
  import opened Snapshots
  import opened Backups
  import opened Text

  const SECONDS_PER_HOUR := 3600.0
  const DAILY_DEDUP_HOURS := 12

  /** Every snapshot of `s` on disk in `w` was begun at least `hours` before `row`. */
  predicate SpacedBy(w: World, s: nat, hours: int, row: Backup) {
    forall b :: b in w.rows && b.server == s && b.means == Rsync && b.status == Done && Snap(b.path) in w.trees ==>
      row.created - b.created >= hours as real * 3600.0
  }

  /** A snapshot of `s` on disk in `w` that is younger than `hours`. */
  predicate RecentIn(w: World, s: nat, hours: int, b: Backup) {
    && b in w.rows && b.server == s && b.means == Rsync && b.status == Done && Snap(b.path) in w.trees
    && w.now - b.created < hours as real * 3600.0
  }

  /** No snapshot of `s` on disk in `w` is younger than `hours`. */
  predicate NoneRecent(w: World, s: nat, hours: int) {
    forall b :: b in w.rows && b.server == s && b.means == Rsync && b.status == Done && Snap(b.path) in w.trees ==>
      w.now - b.created >= hours as real * 3600.0
  }

  lemma NoneRecentIff(w: World, s: nat, hours: int)
    ensures NoneRecent(w, s, hours) <==> forall b :: !RecentIn(w, s, hours, b)
  {
    if !NoneRecent(w, s, hours) {
      var b :| b in w.rows && b.server == s && b.means == Rsync && b.status == Done && Snap(b.path) in w.trees
               && w.now - b.created < hours as real * 3600.0;
      assert RecentIn(w, s, hours, b);
    } else {
      forall b ensures !RecentIn(w, s, hours, b) { }
    }
  }

  /** A pre-restore snapshot throttles like any other. */
  lemma PreRestoreThrottles(w: World, s: nat, hours: int, b: Backup)
    requires b in w.rows && b.server == s && b.means == Rsync && b.status == Done && b.kind == PreRestore
    requires Snap(b.path) in w.trees && w.now - b.created < hours as real * 3600.0
    ensures RecentIn(w, s, hours, b) && !NoneRecent(w, s, hours)
  {
    NoneRecentIff(w, s, hours);
  }

  /** The check of the newest snapshot on disk speaks for all of them. */
  lemma ThrottleIff(w: World, s: nat, hours: int, last: Option<Backup>)
    requires Ledger(w)
    requires last.Some? ==> last.value in w.rows && IsSnapshot(last.value, s) && Snap(last.value.path) in w.trees
    requires forall b :: b in w.rows && IsSnapshot(b, s) && Snap(b.path) in w.trees ==>
               last.Some? && b.created <= last.value.created
    ensures (last.Some? && hours > 0 && w.now - last.value.created < hours as real * SECONDS_PER_HOUR)
            <==> !NoneRecent(w, s, hours)
  {
    if last.Some? {
      assert last.value.created <= w.now;
    }
  }

  lemma NoneRecentLater(w: World, w1: World, s: nat, hours: int)
    requires NoneRecent(w, s, hours) && SameBook(w, w1) && w.now <= w1.now
    requires forall d :: Snap(d) in w1.trees ==> Snap(d) in w.trees
    ensures NoneRecent(w1, s, hours)
  {
  }

  lemma StopFrameKeepsDisk(w: World, w1: World, s: nat)
    requires StopFrame(w, w1, s)
    ensures SameBook(w, w1) && w.now <= w1.now && w1.trees.Keys == w.trees.Keys
  {
  }

  lemma SpacedByThrottle(w: World, w1: World, s: nat, hours: int, row: Backup)
    requires NoneRecent(w, s, hours) && StopFrame(w, w1, s) && w1.now < row.created
    ensures SpacedBy(w1, s, hours, row)
  {
    forall b | b in w1.rows && IsSnapshot(b, s) && Snap(b.path) in w1.trees
      ensures row.created - b.created >= hours as real * SECONDS_PER_HOUR
    {
      assert b in w.rows;
    }
  }

  lemma ResultFacts(w: World, w': World, s: nat, kind: Kind, keep: int, h: Host, r: SnapshotResult)
    requires BackedUp(w, w', s, kind, keep, h, r)
    ensures r.Taken? ==> w.now < r.row.created
    ensures r.Raised? ==> Snapshotted(w, w', s, kind, r) && SnapshotOutcome(w, s, h, r)
  {
  }

  datatype Gate =
    | GateDisabled
    | GateSawRunning
    | GateRecent(last: Backup)
    | GateBackedUp(row: Backup)
    | GateFailed(left: Option<Backup>)

  /** The hook before a manual start.  It never launches anything.  Which way it goes is
      decided by what its look finds: a process, or else a snapshot young enough. */
  method MaybeBackupOnStart(a: Appliance, s: nat, h: Host) returns (g: Gate, ghost still: World)
    requires a.Valid() && s in a.servers
    modifies a
    ensures a.Valid() && s in a.servers
    ensures Only(old(a.log), a.log, {Outside, RowKeeping, Snapshotting, Removing})
    ensures g.GateDisabled? <==> !old(a.servers[s].settings.backupOnStart)
    ensures g.GateDisabled? ==> a.W() == old(a.W()) && a.future == old(a.future)
    ensures !g.GateDisabled? ==> still == Refreshed(a.contents, old(a.W()), s, old(a.future))
    ensures !g.GateDisabled? ==> (g.GateSawRunning? <==> FoundAlive(a.contents, old(a.W()), s, old(a.future)))
    ensures !g.GateDisabled? && !g.GateSawRunning? ==>
              (g.GateRecent? <==> !NoneRecent(still, s, old(a.servers[s].settings.minIntervalHours)))
    ensures g.GateSawRunning? || g.GateRecent? ==> a.W() == still && a.future == AfterLook(old(a.W()), s, old(a.future))
    ensures !g.GateDisabled? ==> StopFrame(old(a.W()), still, s)
    ensures g.GateSawRunning? ==> HasProcess(still, s) && old(HasProcess(a.W(), s))
    ensures g.GateRecent? || g.GateBackedUp? || g.GateFailed? ==> RowStopped(still, s) && RowStopped(a.W(), s)
    ensures g.GateRecent? ==> RecentIn(still, s, old(a.servers[s].settings.minIntervalHours), g.last)
    ensures g.GateBackedUp? ==>
              && BackedUp(still, a.W(), s, Normal, old(a.servers[s].settings.keepGenerations), h, Taken(g.row))
              && SpacedBy(still, s, old(a.servers[s].settings.minIntervalHours), g.row)
    ensures g.GateFailed? ==>
              Snapshotted(still, a.W(), s, Normal, Raised(g.left)) && SnapshotOutcome(still, s, h, Raised(g.left))
  {
    hide FoundAlive, Refreshed, AfterLook, Advance, StartedFrom, LaunchesLast, StartOutcome, StartFrame, ByLadder;
    hide Appliance.Valid, Appliance.Stored, Only, StopFrame, BackedUp, EnvFrame, HasProcess, Snapshotted, SnapshotOutcome,
      NoneRecent, SpacedBy, RecentIn;
    ghost var w, log := a.W(), a.log;
    ghost var quiet: set<Sort> := {Outside, RowKeeping, Snapshotting, Removing};
    var hours, keep := a.servers[s].settings.minIntervalHours, a.servers[s].settings.keepGenerations;
    if !a.servers[s].settings.backupOnStart {
      NoneYet(log, quiet);
      return GateDisabled, w;
    }
    var status := RefreshStatus(a, s);
    still := a.W();
    OnlyMore(log, a.log, {Outside, RowKeeping}, quiet);
    StopFrameSettings(w, still, s);
    StoppedStays(w, still, s);
    if status.Running? {
      return GateSawRunning, still;
    }
    ghost var l1 := a.log;
    a.Tables();
    var last := LastSuccessfulSnapshot(a.rows, a.fs.dirs.Keys, s);
    ThrottleIff(still, s, hours, last);
    if last.Some? && hours > 0 && a.now - last.value.created < hours as real * SECONDS_PER_HOUR {
      RecentByThrottle(still, s, hours, last.value);
      return GateRecent(last.value), still;
    }
    StillStopped(still, s);
    RefreshedIdle(a.contents, still, s, a.future);
    var report, _, w2, _ := BackupNow(a, s, Normal, h);
    OnlyTransitive(log, l1, a.log, quiet, quiet, quiet);
    ResultFacts(still, a.W(), s, Normal, keep, h, report.result);
    match report.result
    case Taken(row) =>
      SpacedByThrottle(still, w2, s, hours, row);
      return GateBackedUp(row), still;
    case Raised(left) =>
      return GateFailed(left), still;
  }

  lemma RecentByThrottle(w: World, s: nat, hours: int, b: Backup)
    requires b in w.rows && IsSnapshot(b, s) && Snap(b.path) in w.trees
    requires w.now - b.created < hours as real * SECONDS_PER_HOUR
    ensures RecentIn(w, s, hours, b)
  {
  }

  lemma StillStopped(w: World, s: nat)
    requires RowStopped(w, s)
    ensures !HasProcess(w, s)
  {
  }

  // ----- The start action ----------------------------------------------------------------

  /** A process is there when the gate looks and gone when the launch looks, and nothing else
      stands in the way of a launch. */
  ghost predicate Outrun(c: Contents, w: World, s: nat, h: Host, future: seq<Burst>) {
    && s in w.servers && FoundAlive(c, w, s, future)
    && Slipped(c, Refreshed(c, w, s, future), s, h, AfterLook(w, s, future))
  }

  ghost predicate Slipped(c: Contents, w: World, s: nat, h: Host, future: seq<Burst>) {
    && s in w.servers && !FoundAlive(c, w, s, future)
    && CanLaunch(AtLaunch(c, w, s, future), s) && h.launches
  }

  /** The gate's backup would not last: the first free name of its directory is one that an
      older row names too, and retention is to remove that row.  The name and the rows are
      those before the call. */
  ghost predicate Wasted(c: Contents, w: World, s: nat, h: Host, future: seq<Burst>) {
    && s in w.servers && !FoundAlive(c, w, s, future)
    && NoneRecent(Refreshed(c, w, s, future), s, w.servers[s].settings.minIntervalHours)
    && exists path :: Named(w, s, h, path) && !Spared(w.rows, s, Normal, w.servers[s].settings.keepGenerations, path)
  }

  /** A start: first the gate, then, unless the gate's backup failed, the launch.  `gated` is
      the world the gate left.  With the gate enabled and removals that complete, a launch
      stands on a snapshot if and only if the gate was neither outrun nor wasted. */
  method ActionStart(a: Appliance, s: nat, h: Host)
    returns (g: Gate, r: Option<StartReport>, ghost still: World, ghost gated: World)
    requires a.Valid() && s in a.servers
    modifies a
    ensures a.Valid() && s in a.servers
    // What the gate did.
    ensures g.GateDisabled? <==> !old(a.servers[s].settings.backupOnStart)
    ensures g.GateDisabled? ==> gated == old(a.W())
    ensures !g.GateDisabled? ==> StopFrame(old(a.W()), still, s) && still == Refreshed(a.contents, old(a.W()), s, old(a.future))
    ensures !g.GateDisabled? ==> (g.GateSawRunning? <==> FoundAlive(a.contents, old(a.W()), s, old(a.future)))
    ensures !g.GateDisabled? && !g.GateSawRunning? ==>
              (g.GateRecent? <==> !NoneRecent(still, s, old(a.servers[s].settings.minIntervalHours)))
    ensures g.GateSawRunning? ==> HasProcess(still, s)
    ensures g.GateSawRunning? || g.GateRecent? ==> gated == still
    ensures g.GateBackedUp? ==>
              BackedUp(still, gated, s, Normal, old(a.servers[s].settings.keepGenerations), h, Taken(g.row))
    ensures g.GateFailed? ==>
              Snapshotted(still, gated, s, Normal, Raised(g.left)) && SnapshotOutcome(still, s, h, Raised(g.left))
    // A failed backup means no launch; otherwise a start, which no stop precedes.
    ensures r.None? <==> g.GateFailed?
    ensures r.None? ==> a.W() == gated && RowStopped(a.W(), s)
    ensures r.None? ==> Only(old(a.log), a.log, {Outside, RowKeeping, Snapshotting, Removing})
    ensures r.Some? ==> StartFrame(gated, a.W(), s, r.value) && StartOutcome(a.W(), s, h, r.value)
    ensures g.GateDisabled? ==> StartedFrom(a.contents, gated, old(a.future), s, h, r.value, a.W())
    ensures g.GateSawRunning? || g.GateRecent? ==>
              StartedFrom(a.contents, gated, AfterLook(old(a.W()), s, old(a.future)), s, h, r.value, a.W())
    ensures g.GateRecent? || g.GateBackedUp? ==> RowStopped(gated, s) && !r.value.AlreadyRunning?
    ensures r.Some? ==> LaunchesLast(old(a.log), a.log, s, {Outside, RowKeeping, Snapshotting, Removing}, r.value)
    // What a launch stands on.
    ensures !g.GateDisabled? && r.Some? && r.value.Started?
            && (h.removalCompletes || !Wasted(a.contents, old(a.W()), s, h, old(a.future))) ==>
              (Evidence(still, a.W(), s, old(a.servers[s].settings.minIntervalHours), g)
               <==> !Outrun(a.contents, old(a.W()), s, h, old(a.future))
                    && !Wasted(a.contents, old(a.W()), s, h, old(a.future)))
    ensures !g.GateDisabled? && Outrun(a.contents, old(a.W()), s, h, old(a.future)) ==>
              && g.GateSawRunning? && r.Some? && r.value.Started? && a.rows == old(a.rows)
              && forall hours :: NoneRecent(old(a.W()), s, hours) ==> NoneRecent(a.W(), s, hours)
  {
    hide FoundAlive, Refreshed, AfterLook, Advance, StartedFrom, Slipped, Named, Spared, Wasted, NoneRecent;
    hide Appliance.Valid, Appliance.Stored, Only, StopFrame, StartFrame, StartOutcome, BackedUp, EnvFrame, HasProcess, Snapshotted,
      SnapshotOutcome, SpacedBy, RecentIn, LaunchesLast, Evidence;
    ghost var w, f0 := a.W(), a.future;
    ghost var log, hours, keep := a.log, a.servers[s].settings.minIntervalHours, a.servers[s].settings.keepGenerations;
    g, still := MaybeBackupOnStart(a, s, h);
    gated := a.W();
    if g.GateRecent? || g.GateBackedUp? {
      StillStopped(still, s);
      StillStopped(gated, s);
    }
    if g.GateFailed? {
      r := None;
      return;
    }
    ghost var l1, f1 := a.log, a.future;
    var start := StartServer(a, s, h);
    LaunchesAfter(log, l1, a.log, s, {Outside, RowKeeping, Snapshotting, Removing}, start);
    r := Some(start);
    WastedMeans(a.contents, w, s, h, f0);
    if g.GateRecent? {
      RecentStays(still, a.W(), s, hours, g.last, start);
    } else if g.GateBackedUp? {
      WastedIff(a.contents, w, still, gated, s, h, f0, keep, g.row);
      EvidenceAtLaunch(still, gated, a.W(), s, hours, keep, h, g.row, start);
    } else if g.GateSawRunning? {
      SlippedIff(a.contents, gated, f1, s, h, start, a.W());
      NoEvidence(still, a.W(), s, hours, g);
      LaunchKeepsBook(w, gated, a.W(), s, start);
    }
  }

  lemma WastedMeans(c: Contents, w: World, s: nat, h: Host, future: seq<Burst>)
    ensures Wasted(c, w, s, h, future) ==>
              && s in w.servers && !FoundAlive(c, w, s, future)
              && NoneRecent(Refreshed(c, w, s, future), s, w.servers[s].settings.minIntervalHours)
  {
    hide FoundAlive, Refreshed, NoneRecent, Named, Spared;
  }

  /** Whether a backup lasts can be told before the server is looked at. */
  lemma WastedIff(c: Contents, w: World, still: World, gated: World, s: nat, h: Host, future: seq<Burst>, keep: int, row: Backup)
    requires StopFrame(w, still, s) && !FoundAlive(c, w, s, future) && still == Refreshed(c, w, s, future)
    requires NoneRecent(still, s, w.servers[s].settings.minIntervalHours) && keep == w.servers[s].settings.keepGenerations
    requires BackedUp(still, gated, s, Normal, keep, h, Taken(row))
    ensures Wasted(c, w, s, h, future) <==> !Spared(still.rows, s, Normal, keep, row.path)
  {
    StopFrameKeepsDisk(w, still, s);
    NamedBefore(w, still, s, h, row.path);
    hide FoundAlive, Refreshed, NoneRecent, Named, Spared, Kept, StopFrame;
    if Wasted(c, w, s, h, future) {
      var path :| Named(w, s, h, path) && !Spared(w.rows, s, Normal, keep, path);
      NamedOnce(w, s, h, path, row.path);
    }
  }

  lemma NamedBefore(w: World, still: World, s: nat, h: Host, path: string)
    requires StopFrame(w, still, s) && Named(still, s, h, path)
    ensures Named(w, s, h, path)
  {
    hide Candidate;
    assert w.trees.Keys == still.trees.Keys;
    assert |w.trees| == |w.trees.Keys| && |still.trees| == |still.trees.Keys|;
    var base := w.servers[s].settings.backupRoot + "/" + h.timestamp;
    var k: nat :| k <= |still.trees| && FirstFree(still, base, k, path);
    assert FirstFree(w, base, k, path);
  }

  /** Past a gate that saw a process, a launch comes about exactly when the process has slipped
      away and nothing else is in the way. */
  lemma SlippedIff(c: Contents, w: World, future: seq<Burst>, s: nat, h: Host, r: StartReport, w': World)
    requires StartedFrom(c, w, future, s, h, r, w')
    ensures r.Started? <==> Slipped(c, w, s, h, future)
  {
    hide FoundAlive, Refreshed, AfterLook, AtLaunch, ApplyLaunch;
  }

  lemma NoEvidence(still: World, w: World, s: nat, hours: int, g: Gate)
    requires g.GateSawRunning?
    ensures !Evidence(still, w, s, hours, g)
  {
  }

  lemma LaunchKeepsBook(w: World, w1: World, w2: World, s: nat, r: StartReport)
    requires StopFrame(w, w1, s) && StartFrame(w1, w2, s, r)
    ensures w2.rows == w.rows
    ensures forall hours :: NoneRecent(w, s, hours) ==> NoneRecent(w2, s, hours)
  {
    StartAfterStop(w, w1, w2, s, r);
    var x := if r.Started? then w2.(procs := w2.procs - {r.pid}) else w2;
    StopFrameKeepsDisk(w, x, s);
    forall hours | NoneRecent(w, s, hours) ensures NoneRecent(w2, s, hours) {
      hide NoneRecent;
      NoneRecentLater(w, w2, s, hours);
    }
  }

  lemma StartKeepsSnapshots(w: World, w': World, s: nat, r: StartReport)
    requires StartFrame(w, w', s, r)
    ensures SameBook(w, w') && forall b :: Settled(w, b) ==> Settled(w', b)
    ensures forall d :: Snap(d) in w.trees ==> Snap(d) in w'.trees && w'.trees[Snap(d)] == w.trees[Snap(d)]
    ensures w'.trees.Keys == w.trees.Keys
    ensures !HasProcess(w, s) && Live(s) in w.trees ==> Live(s) in w'.trees && w'.trees[Live(s)] == w.trees[Live(s)]
  {
  }

  /** What a launch stands on: a snapshot on disk that was younger than the interval, or one
      taken just now, on disk and equal to the very files the server is launched with. */
  ghost predicate Evidence(still: World, w: World, s: nat, hours: int, g: Gate) {
    match g
    case GateRecent(b) => RecentIn(still, s, hours, b) && b in w.rows && Snap(b.path) in w.trees
    case GateBackedUp(row) =>
      && SpacedBy(still, s, hours, row) && IsSnapshot(row, s) && Settled(w, row)
      && Snap(row.path) in w.trees && Live(s) in w.trees && w.trees[Snap(row.path)] == w.trees[Live(s)]
    case _ => false
  }

  lemma RecentStays(still: World, w: World, s: nat, hours: int, b: Backup, r: StartReport)
    requires StartFrame(still, w, s, r) && RecentIn(still, s, hours, b)
    ensures Evidence(still, w, s, hours, GateRecent(b))
  {
    hide StartFrame;
    StartKeepsSnapshots(still, w, s, r);
  }

  /** A recent snapshot from which nothing has been removed is complete. */
  lemma RecentIsWhole(still: World, w: World, s: nat, hours: int, b: Backup)
    requires Evidence(still, w, s, hours, GateRecent(b)) && Intact(w) && b.id !in w.torn
    ensures Settled(w, b) && b.id in w.taken && Snap(b.path) in w.trees && w.trees[Snap(b.path)] == w.taken[b.id]
  {
  }

  /** One that a removal was cut off in counts as recent all the same. */
  lemma RecentCanBeTorn(settings: Settings, d: string, p: string, f: File, hours: int)
    returns (w: World, ls: seq<Label>, b: Backup)
    requires hours > 0
    ensures var w' := Exec(w, ls);
            && Inv(w) && Owned(w) && Legal(w, ls) && ls == [Removal(Remove(d, p))] && 1 in w'.servers
            && Evidence(w', w', 1, hours, GateRecent(b))
            && b.id in w'.torn && b.id in w'.taken && w'.trees[Snap(b.path)] != w'.taken[b.id]
  {
    b := Backup(1, 1, d, Rsync, Normal, Done, 0.0);
    w := World(map[1 := Server(None, Stopped, None, settings)], map[], map[Live(1) := map[], Snap(d) := map[p := f]],
               [b], 0.0, [], map[1 := map[p := f]], {});
    var step := Removal(Remove(d, p));
    ls := [] + [step];
    TornWorld(w, b, p, f);
    assert Legal(w, []) && Exec(w, []) == w;
    hide Inv, Owned, Enabled, Apply, Evidence;
    RunSnoc(w, [], step);
    TornIsRecent(Apply(w, step), hours, b);
  }

  lemma TornWorld(w: World, b: Backup, p: string, f: File)
    requires w.rows == [b] && b.id == 1 && b.created == w.now && w.procs == map[] && w.torn == {}
    requires IsSnapshot(b, 1) && Snap(b.path) in w.trees && w.trees[Snap(b.path)] == map[p := f] && w.taken == map[1 := map[p := f]]
    ensures Inv(w) && Owned(w) && Enabled(w, Removal(Remove(b.path, p)))
    ensures var w' := Apply(w, Removal(Remove(b.path, p)));
            && w'.rows == w.rows && w'.servers == w.servers && w'.now == w.now && w'.taken == w.taken && b.id in w'.torn
            && Snap(b.path) in w'.trees && w'.trees[Snap(b.path)] != w.taken[b.id]
  {
    assert w.rows[0] == b;
    var w' := Apply(w, Removal(Remove(b.path, p)));
    assert p !in w'.trees[Snap(b.path)] && p in w.taken[b.id];
  }

  lemma TornIsRecent(w: World, hours: int, b: Backup)
    requires w.rows == [b] && IsSnapshot(b, 1) && Snap(b.path) in w.trees && w.now == b.created && hours > 0
    ensures Evidence(w, w, 1, hours, GateRecent(b))
  {
    assert w.rows[0] == b;
    assert w.now - b.created < hours as real * SECONDS_PER_HOUR;
  }

  /** A snapshot the gate took is on disk after the launch, equal to the files launched with,
      if retention spares it, and, when removals complete, only if it does. */
  lemma EvidenceAtLaunch(still: World, gated: World, w: World, s: nat, hours: int, keep: int, h: Host, row: Backup, r: StartReport)
    requires StartFrame(gated, w, s, r) && !HasProcess(gated, s) && !HasProcess(still, s)
    requires BackedUp(still, gated, s, Normal, keep, h, Taken(row)) && SpacedBy(still, s, hours, row)
    ensures Spared(still.rows, s, Normal, keep, row.path) ==> Evidence(still, w, s, hours, GateBackedUp(row))
    ensures h.removalCompletes && !Spared(still.rows, s, Normal, keep, row.path) ==>
              !Evidence(still, w, s, hours, GateBackedUp(row)) && Snap(row.path) !in w.trees
  {
    hide StartFrame, SpacedBy, Spared, Kept, BackedUp, HasProcess, SameBook;
    StartKeepsSnapshots(gated, w, s, r);
    BackedUpIsKept(still, gated, s, Normal, keep, h, row);
    KeptSpared(still, gated, s, Normal, keep, h, row);
    KeptAddsNoMore(still, gated, s, Normal, keep, h, row);
    if h.removalCompletes {
      KeptIff(still, gated, s, Normal, keep, h, row);
    }
  }

  /** The gate can be outrun, whatever the world: let the server run, let its process end
      between the two looks, and have its jar in place. */
  lemma GateCanBeOutrun(c: Contents, w: World, s: nat, q: nat, h: Host)
    requires s in w.servers && w.servers[s].pid == Some(q) && q in w.procs && w.procs[q] == s
    requires CanLaunch(w, s) && h.launches
    ensures Outrun(c, w, s, h, [QUIET, Burst(0.0, [Ends(q)])])
  {
    var later := [Burst(0.0, [Ends(q)])];
    var future := [QUIET] + later;
    assert future == [QUIET, Burst(0.0, [Ends(q)])] && future[1..] == later && later[1..] == [];
    assert w.(now := w.now + 0.0) == w;
    assert Advance(c, w, 0.0, future) == w;
    var w1 := PutRight(w, s);
    assert Alive(w, s) && w1.procs == w.procs && w1.trees == w.trees;
    EndsNow(c, w1, q);
    var w2 := w1.(procs := w1.procs - {q});
    assert Advance(c, w1, 0.0, later) == w2;
    assert !Alive(w2, s);
    var w3 := PutRight(w2, s);
    assert w3.(now := w3.now + 0.0) == w3;
    assert Advance(c, w3, 0.0, []) == w3;
  }

  lemma EndsNow(c: Contents, w: World, q: nat)
    requires q in w.procs
    ensures HappenAll(c, w, [Ends(q)]) == w.(procs := w.procs - {q})
  {
    assert [Ends(q)][1..] == [];
  }

  /** The gate's backup can be wasted: after a removal that was cut off before its commit, when
      the timestamp comes again.  The server can be launched, and has nothing on disk. */
  lemma GateCanBeWasted(c: Contents, settings: Settings, jar: File, h: Host, future: seq<Burst>)
    returns (w: World, ls: seq<Label>)
    requires settings.backupOnStart && settings.keepGenerations == 1
    ensures var w' := Exec(w, ls);
            && Inv(w) && Owned(w) && Legal(w, ls)
            && 1 in w'.servers && w'.servers[1].settings == settings && !HasProcess(w', 1)
            && CanLaunch(w', 1) && NoneOnDisk(w', 1) && Wasted(c, w', 1, h, future)
  {
    w, ls := BackupCanBeLost(settings, map[if settings.jar == "" then "server.jar" else settings.jar := jar], h);
    var w', path := Exec(w, ls), settings.backupRoot + "/" + h.timestamp;
    hide Exec, Named, Spared, Legal, Inv, Candidate;
    assert forall d :: Snap(d) !in w'.trees;
    RefreshedIdle(c, w', 1, future);
    assert Named(w', 1, h, path);
  }

  predicate NoneOnDisk(w: World, s: nat) {
    forall b :: b in w.rows && b.server == s && b.means == Rsync && b.status == Done ==> Snap(b.path) !in w.trees
  }

  /** And then the gated start launches the server with no snapshot of it on disk. */
  method StartOnNothing(a: Appliance, s: nat, h: Host)
    requires a.Valid() && s in a.servers && a.servers[s].settings.backupOnStart && !HasProcess(a.W(), s)
    requires NoneOnDisk(a.W(), s) && Wasted(a.contents, a.W(), s, h, a.future) && CanLaunch(a.W(), s)
    requires h.rsyncInstalled && h.copyCompletes && h.removalCompletes && h.launches
    modifies a
    ensures a.Valid() && HasProcess(a.W(), s) && NoneOnDisk(a.W(), s)
  {
    hide FoundAlive, Refreshed, AfterLook, Advance, StartedFrom, Slipped, Named, Spared, Wasted, NoneRecent;
    hide Appliance.Valid, Appliance.Stored, Only, StopFrame, StartFrame, StartOutcome, BackedUp, EnvFrame, HasProcess, Snapshotted,
      SnapshotOutcome, SpacedBy, RecentIn, LaunchesLast, Evidence, NoneOnDisk, CanLaunch, Outrun;
    ghost var w, f0 := a.W(), a.future;
    WastedMeans(a.contents, w, s, h, f0);
    var g, r, still, gated := ActionStart(a, s, h);
    ReadyStays(w, still, s);
    if g.GateFailed? {
      CannotFail(still, s, h, g.left);
    }
    WastedIff(a.contents, w, still, gated, s, h, f0, w.servers[s].settings.keepGenerations, g.row);
    NothingKept(still, gated, s, w.servers[s].settings.keepGenerations, h, g.row);
    LaunchesOnNothing(gated, a.W(), s, h, r.value);
  }

  lemma ReadyStays(w: World, still: World, s: nat)
    requires StopFrame(w, still, s) && !HasProcess(w, s) && CanLaunch(w, s) && NoneOnDisk(w, s)
    ensures CanLaunch(still, s) && NoneOnDisk(still, s) && !HasProcess(still, s)
  {
  }

  lemma CannotFail(still: World, s: nat, h: Host, left: Option<Backup>)
    requires CanLaunch(still, s) && h.rsyncInstalled && h.copyCompletes
    ensures !SnapshotOutcome(still, s, h, Raised(left))
  {
  }

  /** Retention leaves nothing on disk where there was nothing but the new snapshot's directory
      and that is the directory of a row to be removed. */
  lemma NothingKept(still: World, gated: World, s: nat, keep: int, h: Host, row: Backup)
    requires BackedUp(still, gated, s, Normal, keep, h, Taken(row)) && !HasProcess(still, s)
    requires NoneOnDisk(still, s) && CanLaunch(still, s)
    requires h.removalCompletes && !Spared(still.rows, s, Normal, keep, row.path)
    ensures NoneOnDisk(gated, s) && CanLaunch(gated, s) && !HasProcess(gated, s)
  {
    hide *;
    BackedUpIsKept(still, gated, s, Normal, keep, h, row);
    BackedUpKeepsServers(still, gated, s, Normal, keep, h, Taken(row));
    KeptIff(still, gated, s, Normal, keep, h, row);
    KeptAddsNoMore(still, gated, s, Normal, keep, h, row);
    NoneAdded(still, gated, s, row);
  }

  lemma NoneAdded(w: World, w': World, s: nat, row: Backup)
    requires NoneOnDisk(w, s) && CanLaunch(w, s) && w'.servers == w.servers && Snap(row.path) !in w'.trees
    requires forall b :: b in w'.rows ==> b in w.rows || b == row
    requires forall d :: Snap(d) in w'.trees ==> Snap(d) in w.trees || d == row.path
    requires Live(s) in w.trees && Live(s) in w'.trees && w'.trees[Live(s)] == w.trees[Live(s)]
    ensures NoneOnDisk(w', s) && CanLaunch(w', s)
  {
  }

  lemma LaunchesOnNothing(gated: World, w: World, s: nat, h: Host, r: StartReport)
    requires StartFrame(gated, w, s, r) && StartOutcome(w, s, h, r) && !r.AlreadyRunning?
    requires NoneOnDisk(gated, s) && CanLaunch(gated, s) && !HasProcess(gated, s) && h.launches
    ensures HasProcess(w, s) && NoneOnDisk(w, s)
  {
    StartKeepsSnapshots(gated, w, s, r);
    assert r.Started? ==> r.pid in w.procs && w.procs[r.pid] == s;
    StartKeepsSettings(gated, w, s, r);
  }

  lemma StartKeepsSettings(w: World, w': World, s: nat, r: StartReport)
    requires StartFrame(w, w', s, r)
    ensures s in w.servers && s in w'.servers && w'.servers[s].settings == w.servers[s].settings
  {
  }

  // ----- The daily backup ----------------------------------------------------------------

  /** One tick of the per-server daily backup at wall-clock time `clock`, written HH:MM. */
  method RunDueServerBackup(a: Appliance, s: nat, clock: string, h: Host)
    returns (report: Option<BackupReport>, ghost stop: StopReport, ghost still: World, ghost ready: World)
    requires a.Valid() && s in a.servers
    modifies a
    ensures a.Valid()
    ensures Only(old(a.log), a.log, {Outside, RowKeeping, Terming, Launching, Snapshotting, Removing})
    ensures report.Some? <==>
              && old(a.servers[s].settings.backupEnabled && Strip(a.servers[s].settings.backupTime) == clock)
              && NoneRecent(old(a.W()), s, 12)
    ensures report.None? ==> a.W() == old(a.W())
    // A server found running, and only that, is stopped down the ladder, and started again.
    ensures report.Some? ==>
              (report.value.Aborted? || report.value.wasRunning <==> FoundAlive(a.contents, old(a.W()), s, old(a.future)))
    ensures report.Some? && (report.value.Aborted? || report.value.wasRunning) ==> ByLadder(old(a.W()), still, s, h, stop)
    ensures report.Some? && (report.value.Aborted? || report.value.wasRunning) ==>
              var e := ConfirmedFrom(a.contents, Refreshed(a.contents, old(a.W()), s, old(a.future)), s, h,
                                     AfterLook(old(a.W()), s, old(a.future)));
              stop == e.report && still == e.at.world
    ensures report.Some? && report.value.Aborted? ==> report.value.stop == stop && a.W() == still
    ensures report.Some? && report.value.Ran? && !report.value.wasRunning ==>
              still == Refreshed(a.contents, old(a.W()), s, old(a.future))
    ensures report.Some? && report.value.Ran? ==>
              BackedUp(still, ready, s, Normal, old(a.servers[s].settings.keepGenerations), h, report.value.result)
    ensures report.Some? && report.value.Ran? && report.value.result.Taken? ==>
              SpacedBy(still, s, 12, report.value.result.row)
    ensures report.Some? && report.value.Aborted? ==>
              && StopFrame(old(a.W()), a.W(), s) && s in a.servers && a.servers[s].status.Running?
              && a.servers[s].pid == old(a.servers[s].pid) && HasProcess(a.W(), s)
    ensures report.Some? && report.value.Ran? && report.value.wasRunning ==>
              && report.value.restart.Some? && StartFrame(ready, a.W(), s, report.value.restart.value)
              && StartOutcome(a.W(), s, h, report.value.restart.value) && !report.value.restart.value.AlreadyRunning?
    ensures report.Some? && report.value.Ran? && !report.value.wasRunning ==> a.W() == ready && RowStopped(a.W(), s)
    ensures report.Some? && report.value.Ran? ==>
              && RowStopped(still, s) && NoneRecent(still, s, 12)
              && (report.value.restart.Some? <==> report.value.wasRunning)
  {
    hide Appliance.Valid, Only, StopFrame, StartFrame, StartOutcome, BackedUp, EnvFrame, HasProcess, Snapshotted, SnapshotOutcome,
      LaunchesLast, Strip, NoneRecent, SpacedBy, FoundAlive, Refreshed, AfterLook, ByLadder, ConfirmedFrom, RowStopped;
    stop := NotRunning;
    ghost var w, log := a.W(), a.log;
    NoneYet(log, {Outside, RowKeeping, Terming, Launching, Snapshotting, Removing});
    var settings := a.servers[s].settings;
    if !settings.backupEnabled || Strip(settings.backupTime) != clock {
      return None, stop, w, w;
    }
    a.Tables();
    var last := LastSuccessfulSnapshot(a.rows, a.fs.dirs.Keys, s);
    ThrottleIff(w, s, DAILY_DEDUP_HOURS, last);
    if last.Some? && a.now - last.value.created < DAILY_DEDUP_HOURS as real * SECONDS_PER_HOUR {
      return None, stop, w, w;
    }
    var r;
    r, stop, still, ready := BackupNow(a, s, Normal, h);
    BackupLabels(log, a.log, s, r);
    if r.Ran? {
      ResultFacts(still, ready, s, Normal, settings.keepGenerations, h, r.result);
      StopFrameKeepsDisk(w, still, s);
      NoneRecentLater(w, still, s, DAILY_DEDUP_HOURS);
      if r.result.Taken? {
        SpacedByThrottle(w, still, s, DAILY_DEDUP_HOURS, r.result.row);
      }
    }
    return Some(r), stop, still, ready;
  }
}
