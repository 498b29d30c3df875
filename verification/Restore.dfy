/** Restoring a server directory from a snapshot, with the way back kept open. */
module Restore {
  import opened Options
  import opened Hardlinks
  import opened Worlds
  import opened Runs
  import opened Environments
  import opened Appliances
  import opened Hosts
  import opened Lifecycle
  import opened Snapshots

  // ----- rsync into a server directory -------------------------------------------------

  /** What copying snapshot `from` over server `rows[k].server` leaves alone. */
  predicate CopyingBack(w0: World, w: World, k: nat, from: string) {
    && SameBook(w0, w) && w.servers == w0.servers && w.signals == w0.signals && w.now >= w0.now
    && RevertEnabled(w, k) && Snap(from) in w.trees && w.trees.Keys == w0.trees.Keys
    && (forall q :: q in w.procs ==> q in w0.procs && w.procs[q] == w0.procs[q])
    && forall x :: x in w0.trees && (x.Snap? || (x.server != w.rows[k].server && !HasProcess(w0, x.server)))
         ==> w.trees[x] == w0.trees[x]
  }

  /** Outside `todo`, the server directory already agrees with the snapshot. */
  ghost predicate AgreesExcept(w: World, k: nat, from: string, todo: set<string>) {
    && RevertEnabled(w, k) && Snap(from) in w.trees
    && var src, dst := w.trees[Snap(from)], w.trees[Live(w.rows[k].server)];
       forall p :: p !in todo ==> (p in dst <==> p in src) && (p in src ==> dst[p] == src[p])
  }

  lemma BackAfterEnv(w0: World, w: World, w': World, k: nat, from: string, todo: set<string>)
    requires CopyingBack(w0, w, k, from) && AgreesExcept(w, k, from, todo) && EnvFrame(w, w')
    ensures CopyingBack(w0, w', k, from) && AgreesExcept(w', k, from, todo)
  {
    FrameKeepsStoppedEnv(w, w', w.rows[k].server);
    assert forall s :: HasProcess(w, s) ==> HasProcess(w0, s);
  }

  lemma BackAfterStep(w0: World, w: World, k: nat, from: string, todo: set<string>, p: string, e: RevertStep)
    requires CopyingBack(w0, w, k, from) && AgreesExcept(w, k, from, todo) && p in todo
    requires Snap(from) in w.trees
    requires if p in w.trees[Snap(from)] then e == Put(p, w.trees[Snap(from)][p]) else e == Cut(p)
    ensures var w' := ApplyRevert(w, k, e);
            CopyingBack(w0, w', k, from) && AgreesExcept(w', k, from, todo - {p})
  {
  }

  lemma BackAsIs(w: World, k: nat, from: string, todo: set<string>, p: string)
    requires AgreesExcept(w, k, from, todo) && k < |w.rows| && Snap(from) in w.trees && Live(w.rows[k].server) in w.trees
    requires var src, dst := w.trees[Snap(from)], w.trees[Live(w.rows[k].server)];
             (p in dst <==> p in src) && (p in src ==> dst[p] == src[p])
    ensures AgreesExcept(w, k, from, todo - {p})
  {
  }

  lemma BackEnds(w: World, k: nat, from: string)
    requires AgreesExcept(w, k, from, {})
    ensures k < |w.rows| && Snap(from) in w.trees && Live(w.rows[k].server) in w.trees
    ensures w.trees[Live(w.rows[k].server)] == w.trees[Snap(from)]
  {
  }

  lemma BackFacts(w0: World, w: World, k: nat, from: string)
    requires CopyingBack(w0, w, k, from)
    ensures w.rows == w0.rows && RevertEnabled(w, k) && Snap(from) in w.trees
  {
  }

  /** One path of the transfer: left alone when its metadata matches, replaced, or removed. */
  method SyncPath(a: Appliance, k: nat, from: string, p: string, ghost w: World, ghost todo: set<string>)
    requires a.Valid() && CopyingBack(w, a.W(), k, from) && AgreesExcept(a.W(), k, from, todo) && p in todo
    requires k < |a.rows| && a.contents.kin(Snap(from)) == a.contents.kin(Live(a.rows[k].server))
    modifies a
    ensures a.Valid() && CopyingBack(w, a.W(), k, from) && AgreesExcept(a.W(), k, from, todo - {p})
    ensures Only(old(a.log), a.log, {Outside, Restoring})
  {
    hide Appliance.Valid, CopyingBack, AgreesExcept, EnvFrame, HasProcess, Settled, RevertEnabled, ApplyRevert, Only;
    NoneYet(a.log, {Outside, Restoring});
    OneMore(a.log, a.log, Reverting(k, Cut(p)), {Outside, Restoring});
    BackFacts(w, a.W(), k, from);
    RevertFacts(a.W(), k);
    var src, dst := Snap(from), Live(a.rows[k].server);
    a.KeysShown(src);
    a.KeysShown(dst);
    if p in a.fs.dirs[src] {
      if p in a.fs.dirs[dst] && View(a.fs, src)[p].meta == View(a.fs, dst)[p].meta {
        a.SameMeta(src, dst, p);
        BackAsIs(a.W(), k, from, todo, p);
      } else {
        ghost var e := Put(p, a.W().trees[src][p]);
        OneMore(a.log, a.log, Reverting(k, e), {Outside, Restoring});
        BackAfterStep(w, a.W(), k, from, todo, p, e);
        a.PutBack(k, p, from);
      }
    } else if p in a.fs.dirs[dst] {
      BackAfterStep(w, a.W(), k, from, todo, p, Cut(p));
      a.CutBack(k, p);
    } else {
      BackAsIs(a.W(), k, from, todo, p);
    }
  }

  lemma RevertFacts(w: World, k: nat)
    requires RevertEnabled(w, k)
    ensures k < |w.rows| && Live(w.rows[k].server) in w.trees
  {
  }

  /** `rsync -a --delete snapshot/ server_path/`.  It may give up at any point and leave any
      mixture; if it completes the server directory shows the snapshot and nothing else. */
  method RunRsyncBack(a: Appliance, k: nat, from: string, completes: bool) returns (ok: bool)
    requires a.Valid() && CopyingBack(a.W(), a.W(), k, from)
    requires k < |a.rows| && a.contents.kin(Snap(from)) == a.contents.kin(Live(a.rows[k].server))
    modifies a
    ensures a.Valid() && CopyingBack(old(a.W()), a.W(), k, from) && Only(old(a.log), a.log, {Outside, Restoring})
    ensures ok == completes
    ensures ok ==> a.W().trees[Live(a.W().rows[k].server)] == a.W().trees[Snap(from)]
  {
    hide Appliance.Valid, Appliance.Stored, Advance, SameSnaps, Only, CopyingBack, AgreesExcept, EnvFrame, HasProcess, Settled, RevertEnabled;
    ghost var w, log := a.W(), a.log;
    ghost var sorts: set<Sort> := {Outside, Restoring};
    NoneYet(log, sorts);
    BackFacts(w, w, k, from);
    RevertFacts(w, k);
    a.KeysShown(Snap(from));
    a.KeysShown(Live(a.rows[k].server));
    var todo := a.fs.dirs[Snap(from)].Keys + a.fs.dirs[Live(a.rows[k].server)].Keys;
    BackStarts(w, k, from);
    while todo != {}
      invariant a.Valid() && CopyingBack(w, a.W(), k, from) && AgreesExcept(a.W(), k, from, todo)
      invariant Only(log, a.log, sorts) && a.rows == w.rows
    {
      var here: bool := *;
      if !completes && here {
        return false;
      }
      ghost var w1, l1 := a.W(), a.log;
      a.Elapse(0.0);
      OnlyTransitive(log, l1, a.log, sorts, {Outside}, sorts);
      BackAfterEnv(w, w1, a.W(), k, from, todo);
      BackFacts(w, a.W(), k, from);
      var p :| p in todo;
      ghost var l2 := a.log;
      SyncPath(a, k, from, p, w, todo);
      OnlyTransitive(log, l2, a.log, sorts, sorts, sorts);
      BackFacts(w, a.W(), k, from);
      todo := todo - {p};
    }
    BackEnds(a.W(), k, from);
    return completes;
  }

  lemma BackStarts(w: World, k: nat, from: string)
    requires RevertEnabled(w, k) && Snap(from) in w.trees && k < |w.rows| && Live(w.rows[k].server) in w.trees
    ensures AgreesExcept(w, k, from, w.trees[Snap(from)].Keys + w.trees[Live(w.rows[k].server)].Keys)
  {
  }

  // ----- The restore action --------------------------------------------------------------

  datatype RestoreReport =
    | Foreign
    | Busy
    | NotRestorable
    | PreFailed(left: Option<Backup>)
    | NoRsync(pre: Backup)
    | CopyFailed(pre: Backup)
    | Restored(pre: Backup)

  /** From a confirmed stop to the end of the copy: the pre-restore snapshot is settled and
      holds the server's files as they were, every other snapshot directory and row is as it
      was, and the server has no process. */
  ghost predicate SafelyReplaced(w: World, w': World, s: nat, pre: Backup) {
    && pre.server == s && IsSnapshot(pre, s) && pre.kind.PreRestore?
    && w'.rows == w.rows + [pre] && Settled(w', pre) && Live(s) in w.trees && Live(s) in w'.trees
    && pre.id in w'.taken && w'.taken[pre.id] == w.trees[Live(s)]
    && Snap(pre.path) in w'.trees && w'.trees[Snap(pre.path)] == w.trees[Live(s)]
    && (forall b :: Settled(w, b) ==> Settled(w', b))
    && (forall d :: Snap(d) in w.trees ==> Snap(d) in w'.trees && w'.trees[Snap(d)] == w.trees[Snap(d)])
    && (forall x :: x in w.trees && x.Live? && x.server != s && !HasProcess(w, x.server) ==> x in w'.trees && w'.trees[x] == w.trees[x])
    && w'.servers == w.servers && !HasProcess(w', s)
  }

  lemma ReplacedByCopy(w: World, w1: World, w2: World, s: nat, pre: Backup, from: string)
    requires Ledger(w1) && Snapshotted(w, w1, s, PreRestore, Taken(pre)) && !HasProcess(w, s)
    requires CopyingBack(w1, w2, |w.rows|, from)
    ensures SafelyReplaced(w, w2, s, pre)
  {
    FrameKeepsStopped(w, w1, {pre.path}, s);
    assert w1.rows[|w.rows|] == pre;
    forall b | Settled(w, b) ensures Settled(w2, b) {
      assert b in w1.rows;
    }
    forall x | x in w.trees && x.Live? && x.server != s && !HasProcess(w, x.server)
      ensures x in w2.trees && w2.trees[x] == w.trees[x]
    {
      FrameKeepsStopped(w, w1, {pre.path}, x.server);
    }
  }

  lemma ReadyToCopy(w: World, w1: World, s: nat, pre: Backup, from: string)
    requires Snapshotted(w, w1, s, PreRestore, Taken(pre)) && !HasProcess(w, s) && Snap(from) in w.trees
    ensures CopyingBack(w1, w1, |w.rows|, from)
    ensures Snap(from) in w1.trees && w1.trees[Snap(from)] == w.trees[Snap(from)]
  {
    FrameKeepsStopped(w, w1, {pre.path}, s);
    assert w1.rows[|w.rows|] == pre;
  }

  lemma CopyKeepsSource(w0: World, w: World, k: nat, from: string)
    requires CopyingBack(w0, w, k, from) && Snap(from) in w0.trees
    ensures Snap(from) in w.trees && w.trees[Snap(from)] == w0.trees[Snap(from)]
    ensures k < |w.rows| && w.rows == w0.rows && Live(w.rows[k].server) in w.trees
  {
  }

  /** What decides the outcome once a restore is under way: the safety snapshot, then rsync
      and its transfer. */
  predicate RestoreOutcome(w: World, s: nat, h: Host, r: RestoreReport) {
    match r
    case PreFailed(left) => SnapshotOutcome(w, s, h, Raised(left))
    case NoRsync(pre) => SnapshotOutcome(w, s, h, Taken(pre)) && !h.rsyncStillInstalled
    case CopyFailed(pre) => SnapshotOutcome(w, s, h, Taken(pre)) && h.rsyncStillInstalled && !h.revertCompletes
    case Restored(pre) => SnapshotOutcome(w, s, h, Taken(pre)) && h.rsyncStillInstalled && h.revertCompletes
    case _ => false
  }

  predicate HasPre(r: RestoreReport) {
    r.NoRsync? || r.CopyFailed? || r.Restored?
  }

  /** Restore a stopped server from a completed snapshot, after a mandatory snapshot of what
      is there now.  `still` is the world once the server was confirmed stopped. */
  method RestoreBackup(a: Appliance, s: nat, b: Backup, h: Host) returns (r: RestoreReport, ghost still: World)
    requires a.Valid() && s in a.servers && b in a.rows
    modifies a
    ensures a.Valid()
    ensures Only(old(a.log), a.log, {Outside, RowKeeping, Snapshotting, Restoring})
    ensures r.Foreign? <==> b.server != s
    ensures r.Foreign? ==> a.W() == old(a.W())
    ensures !r.Foreign? ==> StopFrame(old(a.W()), still, s)
    ensures !r.Foreign? ==> (r.Busy? <==> FoundAlive(a.contents, old(a.W()), s, old(a.future)))
    ensures !r.Foreign? ==> still == Refreshed(a.contents, old(a.W()), s, old(a.future))
    ensures r.Busy? ==> a.W() == still && HasProcess(still, s)
    ensures r.NotRestorable? ==> a.W() == still
    ensures !r.Foreign? && !r.Busy? ==> (r.NotRestorable? <==> !(IsSnapshot(b, s) && Snap(b.path) in still.trees))
    ensures r.PreFailed? ==> Snapshotted(still, a.W(), s, PreRestore, Raised(r.left))
    ensures r.PreFailed? || HasPre(r) ==> RestoreOutcome(still, s, h, r)
    ensures !r.Foreign? && !r.Busy? ==>
              (r.NotRestorable? <==> !(b.means == Rsync && b.status == Done && Snap(b.path) in still.trees))
    ensures HasPre(r) ==> RowStopped(still, s) && IsSnapshot(b, s) && Snap(b.path) in still.trees
    ensures HasPre(r) ==> SafelyReplaced(still, a.W(), s, r.pre)
    ensures r.NoRsync? ==> a.W().trees[Live(s)] == still.trees[Live(s)]
    ensures r.Restored? ==> a.W().trees[Live(s)] == still.trees[Snap(b.path)] && RowStopped(a.W(), s)
  {
    hide FoundAlive, Refreshed, AfterLook, Advance;
    hide Appliance.Valid, Only, StopFrame, EnvFrame, HasProcess, Snapshotted, RestoreOutcome, Settled, CopyingBack, SafelyReplaced;
    ghost var w, log := a.W(), a.log;
    ghost var all: set<Sort> := {Outside, RowKeeping, Snapshotting, Restoring};
    NoneYet(log, all);
    still := w;
    if b.server != s {
      return Foreign, still;
    }
    var status := RefreshStatus(a, s);
    still := a.W();
    ghost var l1 := a.log;
    OnlyMore(log, l1, {Outside, RowKeeping}, all);
    StopFrameKeepsRows(w, still, s);
    if status != Stopped {
      return Busy, still;
    }
    if !IsSnapshot(b, s) || Snap(b.path) !in a.fs.dirs {
      return NotRestorable, still;
    }
    a.Tables();
    KindredSnapshot(a.contents, still, b, s);
    hide Kindred;
    r := ReplaceFiles(a, s, b, h);
    OnlyTransitive(log, l1, a.log, all, all, all);
  }

  lemma StopFrameKeepsRows(w: World, w': World, s: nat)
    requires StopFrame(w, w', s)
    ensures w'.rows == w.rows && s in w'.servers
  {
  }

  /** The second half of a restore: the copy, with the safety snapshot `pre` of world `w` taken. */
  method CopyOver(a: Appliance, s: nat, b: Backup, h: Host, pre: Backup, ghost w: World) returns (r: RestoreReport)
    requires a.Valid() && RowStopped(w, s) && Snap(b.path) in w.trees && |w.rows| < |a.rows|
    requires a.contents.kin(Snap(b.path)) == a.contents.kin(Live(s))
    requires Snapshotted(w, a.W(), s, PreRestore, Taken(pre)) && SnapshotOutcome(w, s, h, Taken(pre))
    modifies a
    ensures a.Valid() && Only(old(a.log), a.log, {Outside, RowKeeping, Restoring})
    ensures HasPre(r) && r.pre == pre && RestoreOutcome(w, s, h, r) && SafelyReplaced(w, a.W(), s, pre)
    ensures r.NoRsync? ==> a.W() == old(a.W())
    ensures r.Restored? ==> a.W().trees[Live(s)] == w.trees[Snap(b.path)] && RowStopped(a.W(), s)
  {
    hide *;
    ghost var w1, log := a.W(), a.log;
    ghost var all: set<Sort> := {Outside, RowKeeping, Restoring};
    ReadyToReplace(a, w, s, pre, b.path);
    CopyOutcomes(w, s, h, pre);
    NoneYet(log, all);
    r := NoRsync(pre);
    if h.rsyncStillInstalled {
      var ok := RunRsyncBack(a, |a.rows| - 1, b.path, h.revertCompletes);
      r := CopyFailed(pre);
      ghost var w2, l2 := a.W(), a.log;
      OnlyMore(log, l2, {Outside, Restoring}, all);
      ReplacedByCopy(w, w1, w2, s, pre, b.path);
      CopyKeepsSource(w1, w2, |w.rows|, b.path);
      if ok {
        r := Restored(pre);
        LeaveStopped(a, s, pre, w);
        OnlyTransitive(log, l2, a.log, all, {RowKeeping}, all);
      }
    }
  }

  lemma ReadyToReplace(a: Appliance, w: World, s: nat, pre: Backup, from: string)
    requires a.Valid() && RowStopped(w, s) && Snap(from) in w.trees
    requires Snapshotted(w, a.W(), s, PreRestore, Taken(pre))
    ensures Ledger(a.W()) && !HasProcess(w, s)
    ensures a.rows == a.W().rows && |a.rows| == |w.rows| + 1 && a.rows[|w.rows|].server == s
    ensures CopyingBack(a.W(), a.W(), |w.rows|, from) && SafelyReplaced(w, a.W(), s, pre)
    ensures Snap(from) in a.W().trees && a.W().trees[Snap(from)] == w.trees[Snap(from)]
  {
    assert a.rows == a.W().rows;
    hide *;
    a.Tables();
    NewRowIsLast(w, a.W(), s, PreRestore, pre);
    RowStoppedHasNoProcess(w, s);
    ReadyToCopy(w, a.W(), s, pre, from);
    ReplacedByCopy(w, a.W(), a.W(), s, pre, from);
  }

  lemma CopyOutcomes(w: World, s: nat, h: Host, pre: Backup)
    requires SnapshotOutcome(w, s, h, Taken(pre))
    ensures HasPre(NoRsync(pre)) && HasPre(CopyFailed(pre)) && HasPre(Restored(pre))
    ensures !h.rsyncStillInstalled ==> RestoreOutcome(w, s, h, NoRsync(pre))
    ensures h.rsyncStillInstalled && !h.revertCompletes ==> RestoreOutcome(w, s, h, CopyFailed(pre))
    ensures h.rsyncStillInstalled && h.revertCompletes ==> RestoreOutcome(w, s, h, Restored(pre))
  {
    hide SnapshotOutcome;
  }

  /** The row is marked stopped, which it was. */
  method LeaveStopped(a: Appliance, s: nat, pre: Backup, ghost w: World)
    requires a.Valid() && SafelyReplaced(w, a.W(), s, pre) && RowStopped(w, s)
    modifies a
    ensures a.Valid() && a.W() == old(a.W()) && RowStopped(a.W(), s) && Only(old(a.log), a.log, {RowKeeping})
  {
    hide Appliance.Valid, Only, SafelyReplaced, RowStopped, HasProcess;
    NoteKeepsReplaced(w, a.W(), s, pre);
    NoneYet(a.log, {RowKeeping});
    OneMore(a.log, a.log, OnServer(s, NoteStopped(None)), {RowKeeping});
    a.MarkStopped(s, None);
  }

  lemma NewRowIsLast(w: World, w': World, s: nat, kind: Kind, row: Backup)
    requires Snapshotted(w, w', s, kind, Taken(row))
    ensures |w'.rows| == |w.rows| + 1 && w'.rows[|w.rows|].server == s
  {
  }

  /** The two halves of a restore: the safety snapshot, then the copy. */
  method ReplaceFiles(a: Appliance, s: nat, b: Backup, h: Host) returns (r: RestoreReport)
    requires a.Valid() && RowStopped(a.W(), s) && Snap(b.path) in a.fs.dirs
    requires a.contents.kin(Snap(b.path)) == a.contents.kin(Live(s))
    modifies a
    ensures a.Valid() && Only(old(a.log), a.log, {Outside, RowKeeping, Snapshotting, Restoring})
    ensures (r.PreFailed? || HasPre(r)) && RestoreOutcome(old(a.W()), s, h, r)
    ensures r.PreFailed? ==> Snapshotted(old(a.W()), a.W(), s, PreRestore, Raised(r.left))
    ensures HasPre(r) ==> SafelyReplaced(old(a.W()), a.W(), s, r.pre)
    ensures r.NoRsync? ==> a.W().trees[Live(s)] == old(a.W()).trees[Live(s)]
    ensures r.Restored? ==> a.W().trees[Live(s)] == old(a.W()).trees[Snap(b.path)] && RowStopped(a.W(), s)
  {
    hide Appliance.Valid, Only, EnvFrame, Snapshotted, SnapshotOutcome, SafelyReplaced, RowStopped;
    ghost var w, log := a.W(), a.log;
    ghost var all: set<Sort> := {Outside, RowKeeping, Snapshotting, Restoring};
    RowStoppedHasNoProcess(w, s);
    var taken := PerformSnapshot(a, s, PreRestore, h);
    ghost var w1, l1 := a.W(), a.log;
    OnlyMore(log, l1, {Outside, Snapshotting}, all);
    if taken.Raised? {
      return PreFailed(taken.left);
    }
    NewRowIsLast(w, w1, s, PreRestore, taken.row);
    SnapshotKeepsLive(w, w1, s, PreRestore, taken.row);
    r := CopyOver(a, s, b, h, taken.row, w);
    OnlyTransitive(log, l1, a.log, all, {Outside, RowKeeping, Restoring}, all);
  }

  lemma SnapshotKeepsLive(w: World, w': World, s: nat, kind: Kind, row: Backup)
    requires Snapshotted(w, w', s, kind, Taken(row)) && !HasProcess(w, s)
    ensures Live(s) in w.trees && Live(s) in w'.trees && w'.trees[Live(s)] == w.trees[Live(s)]
  {
    FrameKeepsStopped(w, w', {row.path}, s);
  }

  /** Marking a stopped row stopped changes nothing. */
  lemma NoteKeepsReplaced(w: World, w1: World, s: nat, pre: Backup)
    requires SafelyReplaced(w, w1, s, pre) && RowStopped(w, s)
    ensures RowStopped(w1, s) && ServerEnabled(w1, s, NoteStopped(None))
    ensures ApplyServer(w1, s, NoteStopped(None)) == w1
  {
    assert w1.servers[s := w1.servers[s]] == w1.servers;
  }

  /** The undo.  After a restore that went through, or failed in the middle of its copy, and
      after any run that does not remove the pre-restore snapshot (starts, writes, backups and
      further restores included), that snapshot still holds the exact files the server had
      before; restoring it puts them back. */
  lemma {:induction false} UndoStaysPossible(w: World, w1: World, s: nat, pre: Backup, ls: seq<Label>)
    requires SafelyReplaced(w, w1, s, pre) && Inv(w1) && Legal(w1, ls)
    requires forall l :: l in ls ==> !Harms(l, pre)
    ensures var w2 := Exec(w1, ls);
            && Settled(w2, pre) && IsSnapshot(pre, s)
            && Snap(pre.path) in w2.trees && w2.trees[Snap(pre.path)] == w.trees[Live(s)]
  {
    SnapshotEndures(w1, ls, pre);
  }

  /** Restore a snapshot and then, if that got as far as its safety snapshot, restore that one:
      it goes through whenever rsync does, and the files are then those from before the first,
      even if the first gave up midway. */
  method RestoreAndUndo(a: Appliance, s: nat, b: Backup, h1: Host, h2: Host)
    returns (first: RestoreReport, second: Option<RestoreReport>, ghost before: World)
    requires a.Valid() && s in a.servers && b in a.rows
    modifies a
    ensures a.Valid()
    ensures first.Foreign? <==> b.server != s
    ensures first.Foreign? ==> a.W() == old(a.W())
    ensures !first.Foreign? ==> before == Refreshed(a.contents, old(a.W()), s, old(a.future)) && StopFrame(old(a.W()), before, s)
    ensures !first.Foreign? ==> (first.Busy? <==> FoundAlive(a.contents, old(a.W()), s, old(a.future)))
    ensures !first.Foreign? && !first.Busy? ==>
              (first.NotRestorable? <==> !(IsSnapshot(b, s) && Snap(b.path) in before.trees))
    ensures first.PreFailed? || HasPre(first) ==> RestoreOutcome(before, s, h1, first)
    ensures second.Some? <==> HasPre(first)
    ensures second.Some? ==> second.value.PreFailed? || HasPre(second.value)
    ensures second.Some? ==>
              (second.value.Restored? <==>
                 h2.rsyncInstalled && h2.copyCompletes && h2.rsyncStillInstalled && h2.revertCompletes)
    ensures second.Some? && second.value.Restored? ==>
              Live(s) in before.trees && Live(s) in a.W().trees && a.W().trees[Live(s)] == before.trees[Live(s)]
  {
    hide FoundAlive, Refreshed, AfterLook, Advance, RowIdle;
    hide Appliance.Valid, Only, StopFrame, EnvFrame, HasProcess, Snapshotted, RestoreOutcome, Settled, SafelyReplaced, IsSnapshot,
      RowStopped;
    first, before := RestoreBackup(a, s, b, h1);
    second := None;
    if HasPre(first) {
      ghost var w1, f1 := a.W(), a.future;
      UndoFacts(before, w1, s, first.pre);
      RefreshedIdle(a.contents, w1, s, f1);
      var undo;
      ghost var still;
      undo, still := RestoreBackup(a, s, first.pre, h2);
      OutcomeIff(w1, s, h2, undo);
      if undo.Restored? {
        ReplacedLive(still, a.W(), s, undo.pre);
      }
      second := Some(undo);
    }
  }

  lemma UndoFacts(w: World, w1: World, s: nat, pre: Backup)
    requires SafelyReplaced(w, w1, s, pre) && RowStopped(w, s)
    ensures s in w1.servers && pre in w1.rows && pre.server == s && IsSnapshot(pre, s) && RowIdle(w1, s)
    ensures w1.servers[s].status.Stopped? && Live(s) in w1.trees
    ensures Live(s) in w.trees && Snap(pre.path) in w1.trees && w1.trees[Snap(pre.path)] == w.trees[Live(s)]
  {
  }

  lemma OutcomeIff(w: World, s: nat, h: Host, r: RestoreReport)
    ensures RestoreOutcome(w, s, h, r) && Live(s) in w.trees ==>
              (r.Restored? <==> h.rsyncInstalled && h.copyCompletes && h.rsyncStillInstalled && h.revertCompletes)
    ensures RestoreOutcome(w, s, h, r) ==> r.PreFailed? || HasPre(r)
  {
  }

  lemma ReplacedLive(w: World, w': World, s: nat, pre: Backup)
    requires SafelyReplaced(w, w', s, pre)
    ensures Live(s) in w'.trees
  {
  }
}
