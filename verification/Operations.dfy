/** Whole runs of the operator's and the scheduler's requests, one at a time and in any
    order, with the environment moving throughout. */
module Operations {
  import opened Options
  import opened Text
  import opened Hardlinks
  import opened Worlds
  import opened Runs
  import opened Environments
  import opened Appliances
  import opened Hosts
  import opened Lifecycle
  import opened Snapshots
  import opened Retention
  import opened Backups
  import opened StartGate
  import opened Restore
  import opened BackupSettings

  datatype Request =
    | Start
    | Stop
    | Restart
    | ForceKill
    | BackUp
    | RestoreRow(id: nat)
    | DeleteRow(id: nat)
    | DailyTick(clock: string)
    | SaveBackup(form: BackupForm)
    | SaveServer(jar: string, rconEnabled: bool)
    | Idle

  function FindRow(rows: seq<Backup>, s: nat, id: nat): (b: Option<Backup>)
    ensures b.Some? ==> b.value in rows && b.value.id == id && b.value.server == s
    ensures b.None? ==> forall r :: r in rows && r.id == id ==> r.server != s
  {
    if rows == [] then None
    else if rows[0].id == id && rows[0].server == s then Some(rows[0])
    else FindRow(rows[1..], s, id)
  }

  ghost const GENTLE: set<Sort> := {Outside, RowKeeping, Terming, Launching, Snapshotting, Removing, Restoring}
  ghost const ANY: set<Sort> :=
    {Outside, RowKeeping, Configuring, Terming, Killing, Launching, Snapshotting, Removing, Restoring}

  predicate Saves(q: Request) {
    q.SaveBackup? || q.SaveServer?
  }

  ghost function SortsFor(q: Request): set<Sort> {
    match q
    case Start => {Outside, RowKeeping, Launching, Snapshotting, Removing}
    case Stop => {Outside, RowKeeping, Terming}
    case Restart => {Outside, RowKeeping, Terming, Launching}
    case ForceKill => {Outside, RowKeeping, Killing}
    case BackUp => {Outside, RowKeeping, Terming, Launching, Snapshotting, Removing}
    case RestoreRow(_) => {Outside, RowKeeping, Snapshotting, Restoring}
    case DeleteRow(_) => {Outside, Removing}
    case DailyTick(_) => {Outside, RowKeeping, Terming, Launching, Snapshotting, Removing}
    case SaveBackup(_) => {Configuring}
    case SaveServer(_, _) => {Configuring}
    case Idle => {Outside}
  }

  /** What a request for server `s` comes to. */
  ghost predicate Served(c: Contents, w: World, w': World, future: seq<Burst>, s: nat, q: Request, h: Host)
    requires s in w.servers
  {
    match q
    case Start => !w.servers[s].settings.backupOnStart ==> exists r :: StartedFrom(c, w, future, s, h, r, w')
    case Stop => w' == StoppedFrom(c, w, s, h, future).at.world
    case Restart =>
      var at := Moment(Refreshed(c, w, s, future), AfterLook(w, s, future));
      var e := ConfirmedFrom(c, at.world, s, h, at.future);
      if !FoundAlive(c, w, s, future) then exists r :: StartedFrom(c, at.world, at.future, s, h, r, w')
      else w' == e.at.world || exists r :: StartedFrom(c, e.at.world, e.at.future, s, h, r, w')
    case ForceKill => w' == KilledFrom(c, w, s, h, future).at.world
    case BackUp => forall b :: b in w'.rows ==> b in w.rows || (b.server == s && b.kind == Normal)
    case RestoreRow(id) => (forall b :: b in w.rows && b.id == id ==> b.server != s) ==> w' == w
    case DeleteRow(id) => forall b :: b in w'.rows <==> b in w.rows && !(b.server == s && b.id == id)
    case DailyTick(clock) =>
      !w.servers[s].settings.backupEnabled || Strip(w.servers[s].settings.backupTime) != clock ==> w' == w
    case SaveBackup(form) =>
      s in w'.servers && (w' == w || Stored(w.servers[s].settings, form, w'.servers[s].settings))
    case SaveServer(jar, rconEnabled) =>
      s in w'.servers && w'.servers[s].settings == w.servers[s].settings.(jar := jar, rconEnabled := rconEnabled)
    case Idle => w' == Advance(c, w, 0.0, future)
  }

  /** One request, for a server that is there.  A signal that kills is sent by no request but
      `ForceKill`, settings are changed by none but the two forms, and their bounds are kept. */
  method Handle(a: Appliance, s: nat, q: Request, h: Host)
    requires a.Valid()
    modifies a
    ensures a.Valid() && Only(old(a.log), a.log, SortsFor(q))
    ensures s in old(a.servers) ==> s in old(a.W()).servers && Served(a.contents, old(a.W()), a.W(), old(a.future), s, q, h)
    ensures s !in old(a.servers) ==> a.W() == old(a.W())
    ensures AllBounded(old(a.W())) ==> AllBounded(a.W())
  {
    hide Appliance.Valid, Only, AllBounded, SortsFor, Served;
    ghost var w, log := a.W(), a.log;
    NoneYet(log, SortsFor(q));
    a.HistorySoFar();
    if s in a.servers {
      if Saves(q) {
        HandleSave(a, s, q, h);
      } else {
        HandleQuiet(a, s, q, h);
        a.HistorySoFar();
        NoConfiguring(q);
        if AllBounded(w) {
          BoundsWithoutSaving(a.start, log, a.log, SortsFor(q));
        }
      }
    }
  }

  lemma NoConfiguring(q: Request)
    requires !Saves(q)
    ensures Configuring !in SortsFor(q)
  {
  }

  method HandleSave(a: Appliance, s: nat, q: Request, h: Host)
    requires a.Valid() && s in a.servers && Saves(q)
    modifies a
    ensures a.Valid() && Only(old(a.log), a.log, SortsFor(q))
    ensures s in old(a.W()).servers && Served(a.contents, old(a.W()), a.W(), old(a.future), s, q, h)
    ensures AllBounded(old(a.W())) ==> AllBounded(a.W())
  {
    hide Appliance.Valid, Only, Stored;
    match q {
      case SaveBackup(form) =>
        var _ := SaveBackupSettings(a, s, form);
      case SaveServer(jar, rconEnabled) =>
        var settings := a.servers[s].settings.(jar := jar, rconEnabled := rconEnabled);
        NoneYet(a.log, {Configuring});
        OneMore(a.log, a.log, OnServer(s, Configure(settings)), {Configuring});
        a.SaveSettings(s, settings);
    }
  }

  method HandleQuiet(a: Appliance, s: nat, q: Request, h: Host)
    requires a.Valid() && s in a.servers && !q.SaveBackup? && !q.SaveServer?
    modifies a
    ensures a.Valid() && Only(old(a.log), a.log, SortsFor(q))
    ensures s in old(a.W()).servers && Served(a.contents, old(a.W()), a.W(), old(a.future), s, q, h)
  {
    hide *;
    match q {
      case Start => HandleStart(a, s, q, h);
      case Stop => HandleStop(a, s, q, h);
      case Restart => HandleRestart(a, s, q, h);
      case ForceKill => HandleKill(a, s, q, h);
      case BackUp => HandleBackup(a, s, q, h);
      case RestoreRow(_) => HandleRestore(a, s, q, h);
      case DeleteRow(_) => HandleDelete(a, s, q, h);
      case DailyTick(_) => HandleTick(a, s, q, h);
      case Idle => HandleIdle(a, s, q, h);
    }
  }

  method HandleStart(a: Appliance, s: nat, q: Request, h: Host)
    requires a.Valid() && s in a.servers && q.Start?
    modifies a
    ensures a.Valid() && Only(old(a.log), a.log, SortsFor(q))
    ensures s in old(a.W()).servers && Served(a.contents, old(a.W()), a.W(), old(a.future), s, q, h)
  {
    hide Appliance.Valid, Appliance.Stored, Only, StopFrame, StartFrame, BackedUp, EnvFrame, HasProcess, Snapshotted, Evidence,
      RowStopped, Frame, Ladder, ByLadder, SafelyReplaced, RecentIn, SpacedBy, Settled, NoneRecent, StartOutcome, SnapshotOutcome,
      RestoreOutcome, Gone, Waited, EachFailed, TermsAfter, Outrun, Wasted, DropsLast, Retained, Finished, LaunchesLast;
    hide FoundAlive, Refreshed, AfterLook, Advance, StartedFrom, StoppedFrom, ConfirmedFrom, KilledFrom;
    ghost var log := a.log;
    var g, r, _, _ := ActionStart(a, s, h);
    if r.Some? {
      LaunchIsOnly(log, a.log, s, {Outside, RowKeeping, Snapshotting, Removing}, r.value, SortsFor(q));
    } else {
      OnlyMore(log, a.log, {Outside, RowKeeping, Snapshotting, Removing}, SortsFor(q));
    }
  }

  method HandleStop(a: Appliance, s: nat, q: Request, h: Host)
    requires a.Valid() && s in a.servers && q.Stop?
    modifies a
    ensures a.Valid() && Only(old(a.log), a.log, SortsFor(q))
    ensures s in old(a.W()).servers && Served(a.contents, old(a.W()), a.W(), old(a.future), s, q, h)
  {
    hide Appliance.Valid, Appliance.Stored, Only, StopFrame, StartFrame, BackedUp, EnvFrame, HasProcess, Snapshotted, Evidence,
      RowStopped, Frame, Ladder, ByLadder, SafelyReplaced, RecentIn, SpacedBy, Settled, NoneRecent, StartOutcome, SnapshotOutcome,
      RestoreOutcome, Gone, Waited, EachFailed, TermsAfter, Outrun, Wasted, DropsLast, Retained, Finished, LaunchesLast;
    hide FoundAlive, Refreshed, AfterLook, Advance, StartedFrom, StoppedFrom, ConfirmedFrom, KilledFrom;
    var _ := StopServer(a, s, h);
  }

  method HandleRestart(a: Appliance, s: nat, q: Request, h: Host)
    requires a.Valid() && s in a.servers && q.Restart?
    modifies a
    ensures a.Valid() && Only(old(a.log), a.log, SortsFor(q))
    ensures s in old(a.W()).servers && Served(a.contents, old(a.W()), a.W(), old(a.future), s, q, h)
  {
    hide Appliance.Valid, Appliance.Stored, Only, StopFrame, StartFrame, BackedUp, EnvFrame, HasProcess, Snapshotted, Evidence,
      RowStopped, Frame, Ladder, ByLadder, SafelyReplaced, RecentIn, SpacedBy, Settled, NoneRecent, StartOutcome, SnapshotOutcome,
      RestoreOutcome, Gone, Waited, EachFailed, TermsAfter, Outrun, Wasted, DropsLast, Retained, Finished, LaunchesLast;
    hide FoundAlive, Refreshed, AfterLook, Advance, StartedFrom, StoppedFrom, ConfirmedFrom, KilledFrom;
    ghost var log := a.log;
    var r, _ := RestartServer(a, s, h);
    if r.RestartAborted? {
      OnlyMore(log, a.log, {Outside, RowKeeping, Terming}, SortsFor(q));
    } else {
      LaunchIsOnly(log, a.log, s, {Outside, RowKeeping, Terming}, r.start, SortsFor(q));
    }
  }

  method HandleKill(a: Appliance, s: nat, q: Request, h: Host)
    requires a.Valid() && s in a.servers && q.ForceKill?
    modifies a
    ensures a.Valid() && Only(old(a.log), a.log, SortsFor(q))
    ensures s in old(a.W()).servers && Served(a.contents, old(a.W()), a.W(), old(a.future), s, q, h)
  {
    hide Appliance.Valid, Appliance.Stored, Only, StopFrame, StartFrame, BackedUp, EnvFrame, HasProcess, Snapshotted, Evidence,
      RowStopped, Frame, Ladder, ByLadder, SafelyReplaced, RecentIn, SpacedBy, Settled, NoneRecent, StartOutcome, SnapshotOutcome,
      RestoreOutcome, Gone, Waited, EachFailed, TermsAfter, Outrun, Wasted, DropsLast, Retained, Finished, LaunchesLast;
    hide FoundAlive, Refreshed, AfterLook, Advance, StartedFrom, StoppedFrom, ConfirmedFrom, KilledFrom;
    var _ := KillServer(a, s, h);
  }

  method HandleBackup(a: Appliance, s: nat, q: Request, h: Host)
    requires a.Valid() && s in a.servers && q.BackUp?
    modifies a
    ensures a.Valid() && Only(old(a.log), a.log, SortsFor(q))
    ensures s in old(a.W()).servers && Served(a.contents, old(a.W()), a.W(), old(a.future), s, q, h)
  {
    hide Appliance.Valid, Appliance.Stored, Only, StopFrame, StartFrame, BackedUp, EnvFrame, HasProcess, Snapshotted, Evidence,
      RowStopped, Frame, Ladder, ByLadder, SafelyReplaced, RecentIn, SpacedBy, Settled, NoneRecent, StartOutcome, SnapshotOutcome,
      RestoreOutcome, Gone, Waited, EachFailed, TermsAfter, Outrun, Wasted, DropsLast, Retained, Finished, LaunchesLast;
    hide FoundAlive, Refreshed, AfterLook, Advance, StartedFrom, StoppedFrom, ConfirmedFrom, KilledFrom;
    ghost var log := a.log;
    var r, _, _, _ := BackupNow(a, s, Normal, h);
    BackupLabels(log, a.log, s, r);
  }

  method HandleRestore(a: Appliance, s: nat, q: Request, h: Host)
    requires a.Valid() && s in a.servers && q.RestoreRow?
    modifies a
    ensures a.Valid() && Only(old(a.log), a.log, SortsFor(q))
    ensures s in old(a.W()).servers && Served(a.contents, old(a.W()), a.W(), old(a.future), s, q, h)
  {
    hide Appliance.Valid, Appliance.Stored, Only, StopFrame, StartFrame, BackedUp, EnvFrame, HasProcess, Snapshotted, Evidence,
      RowStopped, Frame, Ladder, ByLadder, SafelyReplaced, RecentIn, SpacedBy, Settled, NoneRecent, StartOutcome, SnapshotOutcome,
      RestoreOutcome, Gone, Waited, EachFailed, TermsAfter, Outrun, Wasted, DropsLast, Retained, Finished, LaunchesLast;
    hide FoundAlive, Refreshed, AfterLook, Advance, StartedFrom, StoppedFrom, ConfirmedFrom, KilledFrom;
    NoneYet(a.log, SortsFor(q));
    var b := FindRow(a.rows, s, q.id);
    if b.Some? {
      var _, _ := RestoreBackup(a, s, b.value, h);
    }
  }

  method HandleDelete(a: Appliance, s: nat, q: Request, h: Host)
    requires a.Valid() && s in a.servers && q.DeleteRow?
    modifies a
    ensures a.Valid() && Only(old(a.log), a.log, SortsFor(q))
    ensures s in old(a.W()).servers && Served(a.contents, old(a.W()), a.W(), old(a.future), s, q, h)
  {
    hide Appliance.Valid, Appliance.Stored, Only, StopFrame, StartFrame, BackedUp, EnvFrame, HasProcess, Snapshotted, Evidence,
      RowStopped, Frame, Ladder, ByLadder, SafelyReplaced, RecentIn, SpacedBy, Settled, NoneRecent, StartOutcome, SnapshotOutcome,
      RestoreOutcome, Gone, Waited, EachFailed, TermsAfter, Outrun, Wasted, DropsLast, Retained, Finished, LaunchesLast;
    hide FoundAlive, Refreshed, AfterLook, Advance, StartedFrom, StoppedFrom, ConfirmedFrom, KilledFrom;
    NoneYet(a.log, SortsFor(q));
    a.Tables();
    ghost var rows := a.rows;
    var b := FindRow(a.rows, s, q.id);
    if b.Some? {
      DeletedRows(rows, s, b.value);
      var _ := DeleteBackup(a, s, b.value, h.removalCompletes);
    }
  }

  lemma DeletedRows(rows: seq<Backup>, s: nat, b: Backup)
    requires Ordered(rows) && b in rows && b.server == s
    ensures forall r :: r in Without(rows, {b.id}) <==> r in rows && !(r.server == s && r.id == b.id)
  {
    forall r | r in rows && r.id == b.id ensures r == b {
      SameId(rows, r, b);
    }
  }

  method HandleTick(a: Appliance, s: nat, q: Request, h: Host)
    requires a.Valid() && s in a.servers && q.DailyTick?
    modifies a
    ensures a.Valid() && Only(old(a.log), a.log, SortsFor(q))
    ensures s in old(a.W()).servers && Served(a.contents, old(a.W()), a.W(), old(a.future), s, q, h)
  {
    hide Appliance.Valid, Appliance.Stored, Only, StopFrame, StartFrame, BackedUp, EnvFrame, HasProcess, Snapshotted, Evidence,
      RowStopped, Frame, Ladder, ByLadder, SafelyReplaced, RecentIn, SpacedBy, Settled, NoneRecent, StartOutcome, SnapshotOutcome,
      RestoreOutcome, Gone, Waited, EachFailed, TermsAfter, Outrun, Wasted, DropsLast, Retained, Finished, LaunchesLast;
    hide FoundAlive, Refreshed, AfterLook, Advance, StartedFrom, StoppedFrom, ConfirmedFrom, KilledFrom;
    var _, _, _, _ := RunDueServerBackup(a, s, q.clock, h);
  }

  method HandleIdle(a: Appliance, s: nat, q: Request, h: Host)
    requires a.Valid() && s in a.servers && q.Idle?
    modifies a
    ensures a.Valid() && Only(old(a.log), a.log, SortsFor(q))
    ensures s in old(a.W()).servers && Served(a.contents, old(a.W()), a.W(), old(a.future), s, q, h)
  {
    hide Appliance.Valid, Appliance.Stored, Only, StopFrame, StartFrame, BackedUp, EnvFrame, HasProcess, Snapshotted, Evidence,
      RowStopped, Frame, Ladder, ByLadder, SafelyReplaced, RecentIn, SpacedBy, Settled, NoneRecent, StartOutcome, SnapshotOutcome,
      RestoreOutcome, Gone, Waited, EachFailed, TermsAfter, Outrun, Wasted, DropsLast, Retained, Finished, LaunchesLast;
    hide FoundAlive, Refreshed, AfterLook, Advance, StartedFrom, StoppedFrom, ConfirmedFrom, KilledFrom;
    a.Elapse(0.0);
  }

  /** Whatever has been said of every legal run is said of the history of this appliance. */
  lemma HistoryKeeps(a: Appliance, n: nat)
    requires a.Valid() && n <= |a.log|
    ensures Legal(Exec(a.start, a.log[..n]), a.log[n..]) && a.W() == Exec(Exec(a.start, a.log[..n]), a.log[n..])
    ensures StatusMatchesPid(Exec(a.start, a.log[..n])) ==> StatusMatchesPid(a.W())
  {
    Split(a.start, a.log, n);
    var w, ls := Exec(a.start, a.log[..n]), a.log[n..];
    if StatusMatchesPid(w) {
      StatusAlwaysMatchesPid(w, ls, |ls|);
      assert ls[..|ls|] == ls;
    }
  }

  /** Launches in the history are committed, so cutting it off anywhere leaves each server with
      at most one process. */
  lemma HistoryHasOneProcess(a: Appliance, n: nat, p: nat, q: nat)
    requires a.Valid() && Owned(a.start) && n <= |a.log|
    requires p in Exec(a.start, a.log[..n]).procs && q in Exec(a.start, a.log[..n]).procs
    ensures Exec(a.start, a.log[..n]).procs[p] == Exec(a.start, a.log[..n]).procs[q] ==> p == q
  {
    WholeIsPaired(a.log);
    AtMostOneProcess(a.start, a.log, n, p, q);
  }

  lemma WholeIsPaired(ls: seq<Label>)
    requires Whole(ls)
    ensures Paired(ls)
  {
  }

  /** No snapshot in the history was begun, filled or completed at a moment its server had a
      process. */
  lemma HistorySnapshotsStopped(a: Appliance, i: nat)
    requires a.Valid() && i < |a.log| && a.log[i].OnSnapshot?
    requires a.log[i].snap.Insert? || a.log[i].snap.Place? || a.log[i].snap.Finish?
    ensures var before, e := Exec(a.start, a.log[..i]), a.log[i].snap;
            && (e.Insert? ==> !HasProcess(before, e.row.server))
            && (!e.Insert? ==> e.k < |before.rows| && !HasProcess(before, before.rows[e.k].server))
  {
    SnapshotOnlyWhileStopped(a.start, a.log, i);
  }

  /** Every completed snapshot this appliance has taken, and from which nothing has been
      removed, shows its server's files as they were at some moment without a process. */
  lemma HistorySnapshotsFaithful(a: Appliance, b: Backup)
    requires a.Valid() && b !in a.start.rows && Settled(a.W(), b)
    ensures Snap(b.path) in a.W().trees
    ensures exists i :: CompletedWith(a.start, a.log, i, b, a.W().trees[Snap(b.path)])
  {
    hide Inv, Settled;
    SnapshotsAreFaithful(a.start, a.log, b);
  }

  /** A run of requests is a legal run of the ideal world; rows say running exactly when they
      have a pid; retention stays on for every server; and without a `ForceKill` no process
      is ever killed. */
  method Run(a: Appliance, requests: seq<(nat, Request, Host)>)
    requires a.Valid() && StatusMatchesPid(a.W())
    modifies a
    ensures a.Valid() && StatusMatchesPid(a.W()) && old(a.log) <= a.log
    ensures Legal(old(a.W()), a.log[|old(a.log)|..]) && a.W() == Exec(old(a.W()), a.log[|old(a.log)|..])
    ensures AllBounded(old(a.W())) ==> AllBounded(a.W())
    ensures (forall q :: q in requests ==> !q.1.ForceKill?) ==>
              forall i :: |old(a.log)| <= i < |a.log| && a.log[i].OnServer? && a.log[i].on.Signalled? ==>
                a.log[i].on.signal == Term
  {
    hide Appliance.Valid, Only, Legal, Exec, StatusMatchesPid, AllBounded, SortsFor;
    ghost var w, log := a.W(), a.log;
    ghost var sorts := if forall q :: q in requests ==> !q.1.ForceKill? then GENTLE + {Configuring} else ANY;
    NoneYet(log, sorts);
    a.HistorySoFar();
    for i := 0 to |requests|
      invariant a.Valid() && Only(log, a.log, sorts)
      invariant AllBounded(w) ==> AllBounded(a.W())
    {
      ghost var l1 := a.log;
      Handle(a, requests[i].0, requests[i].1, requests[i].2);
      assert requests[i] in requests;
      SortsAllowed(requests[i].1);
      OnlyTransitive(log, l1, a.log, sorts, SortsFor(requests[i].1), sorts);
    }
    OnlyMeans(log, a.log, sorts);
    HistoryKeeps(a, |log|);
  }

  lemma SortsAllowed(q: Request)
    ensures SortsFor(q) <= ANY && (!q.ForceKill? ==> SortsFor(q) <= GENTLE + {Configuring})
  {
  }

  lemma OnlyMeans(before: seq<Label>, after: seq<Label>, sorts: set<Sort>)
    requires Only(before, after, sorts)
    ensures before <= after && after[..|before|] == before
    ensures forall i :: |before| <= i < |after| ==> SortOf(after[i]) in sorts
  {
  }
}
