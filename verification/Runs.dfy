/** What holds at every point of every legal run, and so at every crash. */
module Runs {
  import opened Options
  import opened Hardlinks
  import opened Worlds

  // ----- Each kind of step keeps the invariant ---------------------------------------

  /** A step that leaves the rows, and what is known of them, alone. */
  predicate SameBook(w: World, w': World) {
    w'.rows == w.rows && w'.taken == w.taken && w'.torn == w.torn
  }

  lemma EnvKeepsInv(w: World, e: EnvStep)
    requires Inv(w) && EnvEnabled(w, e)
    ensures Inv(ApplyEnv(w, e)) && SameBook(w, ApplyEnv(w, e))
  {
    var w' := ApplyEnv(w, e);
    assert forall b :: Settled(w', b) ==> Settled(w, b);
  }

  lemma ServerKeepsInv(w: World, s: nat, e: ServerStep)
    requires Inv(w) && ServerEnabled(w, s, e)
    ensures Inv(ApplyServer(w, s, e)) && SameBook(w, ApplyServer(w, s, e))
  {
    var w' := ApplyServer(w, s, e);
    assert forall b :: Settled(w', b) ==> Settled(w, b);
  }

  lemma RevertKeepsInv(w: World, k: nat, e: RevertStep)
    requires Inv(w) && RevertEnabled(w, k)
    ensures Inv(ApplyRevert(w, k, e)) && SameBook(w, ApplyRevert(w, k, e))
  {
    var w' := ApplyRevert(w, k, e);
    assert forall b :: Settled(w', b) ==> Settled(w, b);
  }

  lemma SnapKeepsLedger(w: World, e: SnapStep)
    requires Ledger(w) && SnapEnabled(w, e)
    ensures Ledger(ApplySnap(w, e))
  {
    assert forall i :: 0 <= i < |w.rows| ==> w.rows[i] in w.rows;
  }

  /** A snapshot settled after a snapshot step was settled before it, unless this completed it. */
  lemma SettledBefore(w: World, e: SnapStep, b: Backup)
    requires Ledger(w) && SnapEnabled(w, e) && Settled(ApplySnap(w, e), b)
    ensures if e.Finish? && b.id == w.rows[e.k].id then b == w.rows[e.k].(status := Done) else Settled(w, b)
  {
    var w' := ApplySnap(w, e);
    var i :| 0 <= i < |w'.rows| && w'.rows[i] == b;
    if e.Finish? || e.Fail? {
      assert i != e.k ==> w.rows[i] == b && b.id != w.rows[e.k].id;
    }
  }

  lemma SnapKeepsInv(w: World, e: SnapStep)
    requires Inv(w) && SnapEnabled(w, e)
    ensures Inv(ApplySnap(w, e))
  {
    var w' := ApplySnap(w, e);
    SnapKeepsLedger(w, e);
    forall b | Settled(w', b)
      ensures b.id in w'.taken && Snap(b.path) in w'.trees && w'.trees[Snap(b.path)] == w'.taken[b.id]
    {
      SettledBefore(w, e, b);
    }
  }

  lemma {:induction false} WithoutKeepsOrder(rows: seq<Backup>, ids: set<nat>)
    requires Ordered(rows)
    ensures Ordered(Without(rows, ids))
    ensures forall b :: b in Without(rows, ids) <==> b in rows && b.id !in ids
  {
    if rows != [] {
      var front := rows[..|rows| - 1];
      WithoutKeepsOrder(front, ids);
      var kept := Without(front, ids);
      forall i | 0 <= i < |kept|
        ensures kept[i].created < rows[|rows| - 1].created && kept[i].id != rows[|rows| - 1].id
      {
        assert kept[i] in kept;
      }
    }
  }

  lemma RemovalKeepsInv(w: World, e: RemovalStep)
    requires Inv(w) && RemovalEnabled(w, e)
    ensures Inv(ApplyRemoval(w, e))
  {
    var w' := ApplyRemoval(w, e);
    if e.Drop? {
      WithoutKeepsOrder(w.rows, e.ids);
    }
    forall b | Settled(w', b)
      ensures b.id in w'.taken && Snap(b.path) in w'.trees && w'.trees[Snap(b.path)] == w'.taken[b.id]
    {
      assert Settled(w, b);
    }
  }

  lemma StepKeepsInv(w: World, l: Label)
    requires Inv(w) && Enabled(w, l)
    ensures Inv(Apply(w, l))
  {
    match l
    case Env(e) => EnvKeepsInv(w, e);
    case OnServer(s, e) => ServerKeepsInv(w, s, e);
    case OnSnapshot(e) => SnapKeepsInv(w, e);
    case Removal(e) => RemovalKeepsInv(w, e);
    case Reverting(k, e) => RevertKeepsInv(w, k, e);
  }

  lemma {:induction false} RunKeepsInv(w: World, ls: seq<Label>)
    requires Inv(w) && Legal(w, ls)
    ensures Inv(Exec(w, ls))
    decreases |ls|
  {
    if ls != [] {
      RunKeepsInv(w, ls[..|ls| - 1]);
      StepKeepsInv(Exec(w, ls[..|ls| - 1]), ls[|ls| - 1]);
    }
  }

  lemma {:induction false} PrefixLegal(w: World, ls: seq<Label>, n: nat)
    requires Legal(w, ls) && n <= |ls|
    ensures Legal(w, ls[..n])
    decreases |ls|
  {
    if n == |ls| {
      assert ls[..n] == ls;
    } else {
      assert ls[..|ls| - 1][..n] == ls[..n];
      PrefixLegal(w, ls[..|ls| - 1], n);
    }
  }

  lemma {:induction false} Split(w: World, ls: seq<Label>, n: nat)
    requires n <= |ls|
    ensures Exec(w, ls) == Exec(Exec(w, ls[..n]), ls[n..])
    ensures Legal(w, ls) ==> Legal(Exec(w, ls[..n]), ls[n..])
    decreases |ls|
  {
    if n == |ls| {
      assert ls[..n] == ls && ls[n..] == [];
    } else {
      var front := ls[..|ls| - 1];
      Split(w, front, n);
      assert front[..n] == ls[..n];
      assert ls[n..][..|ls[n..]| - 1] == front[n..];
    }
  }

  // ----- Processes -----------------------------------------------------------------

  predicate IsSpawn(l: Label) {
    l.OnServer? && l.on.Spawn?
  }

  function CommitOf(l: Label): Label
    requires IsSpawn(l)
  {
    OnServer(l.server, NoteLaunched(l.on.pid))
  }

  /** A run of one process of the web application: each launch is followed by the commit of
      its pid, unless the run is cut off between the two. */
  predicate Paired(ls: seq<Label>) {
    forall i :: 0 <= i < |ls| - 1 && IsSpawn(ls[i]) ==> ls[i + 1] == CommitOf(ls[i])
  }

  predicate EndsInSpawn(ls: seq<Label>) {
    ls != [] && IsSpawn(ls[|ls| - 1])
  }

  /** Process `q` of `s`, the only one of that server, is on no row, and every other process is. */
  predicate OwnedBut(w: World, q: nat, s: nat) {
    && q in w.procs && w.procs[q] == s && s in w.servers && w.servers[s].pid.None? && w.servers[s].status.Stopped?
    && forall p :: p in w.procs && p != q ==>
         w.procs[p] != s && w.procs[p] in w.servers && w.servers[w.procs[p]].pid == Some(p)
  }

  /** Only steps on a server change server rows, and no others add processes. */
  lemma OthersKeepServers(w: World, l: Label)
    requires !l.OnServer?
    ensures Apply(w, l).servers == w.servers
    ensures forall q :: q in Apply(w, l).procs ==> q in w.procs && Apply(w, l).procs[q] == w.procs[q]
  {
    if Enabled(w, l) {
      match l
      case Env(e) =>
        hide ApplyServer, ApplySnap, ApplyRemoval, ApplyRevert, HasProcess;
      case OnSnapshot(e) =>
        hide Apply, Enabled, HasProcess, OpenRow, Settled;
        SnapApplied(w, e);
      case Removal(e) =>
        hide ApplyEnv, ApplyServer, ApplySnap, ApplyRevert, Without, IdsAt, HasProcess;
      case Reverting(k, e) =>
        hide ApplyEnv, ApplyServer, ApplySnap, ApplyRemoval, HasProcess, Settled;
    }
  }

  lemma SnapApplied(w: World, e: SnapStep)
    requires Enabled(w, OnSnapshot(e))
    ensures SnapEnabled(w, e) && Apply(w, OnSnapshot(e)) == ApplySnap(w, e)
    ensures ApplySnap(w, e).servers == w.servers && ApplySnap(w, e).procs == w.procs
  {
  }

  lemma ServerKeepsOwned(w: World, s: nat, e: ServerStep)
    requires Owned(w) && ServerEnabled(w, s, e) && !e.Spawn?
    ensures Owned(ApplyServer(w, s, e))
  {
  }

  lemma StepKeepsOwned(w: World, l: Label)
    requires Owned(w) && Enabled(w, l) && !IsSpawn(l)
    ensures Owned(Apply(w, l))
  {
    if l.OnServer? {
      ServerKeepsOwned(w, l.server, l.on);
    } else {
      OthersKeepServers(w, l);
      hide Enabled, Apply;
    }
  }

  lemma SpawnUnowns(w: World, s: nat, q: nat)
    requires Owned(w) && ServerEnabled(w, s, Spawn(q))
    ensures OwnedBut(ApplyServer(w, s, Spawn(q)), q, s)
  {
  }

  lemma CommitOwns(w: World, s: nat, q: nat)
    requires OwnedBut(w, q, s) && ServerEnabled(w, s, NoteLaunched(q))
    ensures Owned(ApplyServer(w, s, NoteLaunched(q)))
  {
  }

  /** In a run from a world whose processes are all on their rows, they are at every point
      but between a launch and the commit of its pid; there the new process is the only one
      that is not. */
  lemma {:induction false} RunKeepsOwned(w: World, ls: seq<Label>)
    requires Owned(w) && Legal(w, ls) && Paired(ls)
    ensures !EndsInSpawn(ls) ==> Owned(Exec(w, ls))
    ensures EndsInSpawn(ls) ==> OwnedBut(Exec(w, ls), ls[|ls| - 1].on.pid, ls[|ls| - 1].server)
    decreases |ls|
  {
    if ls != [] {
      var front, l := ls[..|ls| - 1], ls[|ls| - 1];
      RunKeepsOwned(w, front);
      var before := Exec(w, front);
      hide Owned, OwnedBut, ServerEnabled, ApplyServer;
      if EndsInSpawn(front) {
        var launch := front[|front| - 1];
        assert ls[|front| - 1] == launch && l == CommitOf(launch);
        CommitOwns(before, launch.server, launch.on.pid);
      } else if IsSpawn(l) {
        SpawnUnowns(before, l.server, l.on.pid);
      } else {
        StepKeepsOwned(before, l);
      }
    }
  }

  /** Every process is on its row if and only if the run was not cut off between a launch and
      the commit of its pid. */
  lemma OwnedIff(w: World, ls: seq<Label>, n: nat)
    requires Owned(w) && Legal(w, ls) && Paired(ls) && n <= |ls|
    ensures Owned(Exec(w, ls[..n])) <==> !(n > 0 && IsSpawn(ls[n - 1]))
  {
    PrefixLegal(w, ls, n);
    assert Paired(ls[..n]);
    RunKeepsOwned(w, ls[..n]);
  }

  /** Cut a run off anywhere: each server has at most one live process. */
  lemma {:induction false} AtMostOneProcess(w: World, ls: seq<Label>, n: nat, p: nat, q: nat)
    requires Owned(w) && Legal(w, ls) && Paired(ls) && n <= |ls|
    requires p in Exec(w, ls[..n]).procs && q in Exec(w, ls[..n]).procs
    ensures Exec(w, ls[..n]).procs[p] == Exec(w, ls[..n]).procs[q] ==> p == q
  {
    PrefixLegal(w, ls, n);
    assert Paired(ls[..n]);
    RunKeepsOwned(w, ls[..n]);
  }

  predicate StatusMatchesPid(w: World) {
    forall s :: s in w.servers ==> (w.servers[s].status.Running? <==> w.servers[s].pid.Some?)
  }

  lemma ServerKeepsStatus(w: World, s: nat, e: ServerStep)
    requires StatusMatchesPid(w) && ServerEnabled(w, s, e)
    ensures StatusMatchesPid(ApplyServer(w, s, e))
  {
    var w' := ApplyServer(w, s, e);
    assert w'.servers[s].status.Running? <==> w'.servers[s].pid.Some?;
  }

  lemma StepKeepsStatus(w: World, l: Label)
    requires StatusMatchesPid(w) && Enabled(w, l)
    ensures StatusMatchesPid(Apply(w, l))
  {
    if l.OnServer? {
      ServerKeepsStatus(w, l.server, l.on);
    } else {
      assert Apply(w, l).servers == w.servers;
    }
  }

  /** Cut a run off anywhere: a row says running exactly when it has a pid. */
  lemma {:induction false} StatusAlwaysMatchesPid(w: World, ls: seq<Label>, n: nat)
    requires StatusMatchesPid(w) && Legal(w, ls) && n <= |ls|
    ensures StatusMatchesPid(Exec(w, ls[..n]))
    decreases n
  {
    if n > 0 {
      PrefixLegal(w, ls, n);
      assert ls[..n][..n - 1] == ls[..n - 1];
      StatusAlwaysMatchesPid(w, ls, n - 1);
      StepKeepsStatus(Exec(w, ls[..n - 1]), ls[n - 1]);
    }
  }

  // ----- Snapshots -----------------------------------------------------------------

  /** The steps that can take something away from snapshot `b`. */
  predicate Harms(l: Label, b: Backup) {
    && l.Removal?
    && match l.rem
       case Remove(d, p) => d == b.path
       case RemoveDir(d) => d == b.path
       case Drop(ids) => b.id in ids
  }

  lemma TornElsewhere(w: World, d: string, b: Backup)
    requires Ledger(w) && b in w.rows && b.path != d
    ensures b.id !in IdsAt(w.rows, d)
  {
    if b.id in IdsAt(w.rows, d) {
      var r :| r in w.rows && r.path == d && r.id == b.id;
      LedgerIds(w, r, b);
    }
  }

  lemma SnapKeepsSettled(w: World, e: SnapStep, b: Backup)
    requires Inv(w) && SnapEnabled(w, e) && Settled(w, b)
    ensures Settled(ApplySnap(w, e), b) && b.id in ApplySnap(w, e).taken
    ensures ApplySnap(w, e).taken[b.id] == w.taken[b.id]
  {
    var w' := ApplySnap(w, e);
    var i :| 0 <= i < |w.rows| && w.rows[i] == b;
    assert w'.rows[i] == b;
    assert e.Finish? ==> w.rows[e.k].id != b.id;
  }

  lemma StepKeepsSettled(w: World, l: Label, b: Backup)
    requires Inv(w) && Enabled(w, l) && Settled(w, b) && !Harms(l, b)
    ensures Settled(Apply(w, l), b) && b.id in Apply(w, l).taken
    ensures Apply(w, l).taken[b.id] == w.taken[b.id]
  {
    match l
    case Env(e) => EnvKeepsInv(w, e);
    case OnServer(s, e) => ServerKeepsInv(w, s, e);
    case OnSnapshot(e) => SnapKeepsSettled(w, e, b);
    case Removal(e) => if !e.Drop? { TornElsewhere(w, e.dir, b); }
    case Reverting(k, e) => RevertKeepsInv(w, k, e);
  }

  /** A settled snapshot shows the files it was completed with after any run that does
      not remove it: later snapshots linked from it, prunes of its neighbours, restores,
      server writes and crashes included. */
  lemma {:induction false} SnapshotEndures(w: World, ls: seq<Label>, b: Backup)
    requires Inv(w) && Legal(w, ls) && Settled(w, b)
    requires forall l :: l in ls ==> !Harms(l, b)
    ensures Settled(Exec(w, ls), b)
    ensures Snap(b.path) in Exec(w, ls).trees && Exec(w, ls).trees[Snap(b.path)] == w.taken[b.id]
    ensures b.id in Exec(w, ls).taken && Exec(w, ls).taken[b.id] == w.taken[b.id]
    decreases |ls|
  {
    if ls != [] {
      var front := ls[..|ls| - 1];
      SnapshotEndures(w, front, b);
      RunKeepsInv(w, front);
      assert ls[|ls| - 1] in ls;
      StepKeepsSettled(Exec(w, front), ls[|ls| - 1], b);
      StepKeepsInv(Exec(w, front), ls[|ls| - 1]);
    }
  }

  /** Fidelity: if step `i` of a run completed the snapshot at position `k` and no later step
      removes from it, then at the end its directory holds the server's tree as it was at step `i`. */
  lemma {:induction false} SnapshotFidelity(w: World, ls: seq<Label>, i: nat, k: nat)
    requires Inv(w) && Legal(w, ls) && i < |ls| && ls[i] == OnSnapshot(Finish(k))
    requires k < |Exec(w, ls[..i]).rows|
    requires forall l :: l in ls[i + 1..] ==> !Harms(l, Exec(w, ls[..i]).rows[k])
    ensures var before, b := Exec(w, ls[..i]), Exec(w, ls[..i]).rows[k];
            && Snap(b.path) in Exec(w, ls).trees && Live(b.server) in before.trees
            && Exec(w, ls).trees[Snap(b.path)] == before.trees[Live(b.server)]
            && Settled(Exec(w, ls), b.(status := Done))
  {
    var before := Exec(w, ls[..i]);
    StepOfRun(w, ls, i);
    PrefixLegal(w, ls, i);
    PrefixLegal(w, ls, i + 1);
    RunKeepsInv(w, ls[..i + 1]);
    var after := Exec(w, ls[..i + 1]);
    var b := after.rows[k];
    assert b in after.rows && Settled(after, b);
    Split(w, ls, i + 1);
    forall l | l in ls[i + 1..] ensures !Harms(l, b) {
      assert !Harms(l, before.rows[k]);
    }
    SnapshotEndures(after, ls[i + 1..], b);
  }

  /** A completed row that was not there at the start was completed by some step, and what it
      was completed with is the server's tree at that step. */
  lemma {:induction false} RowsAreCompleted(w: World, ls: seq<Label>, b: Backup)
    requires Inv(w) && Legal(w, ls) && b !in w.rows && Settled(Exec(w, ls), b)
    ensures b.id in Exec(w, ls).taken && exists i :: CompletedWith(w, ls, i, b, Exec(w, ls).taken[b.id])
    decreases |ls|
  {
    var front, l := ls[..|ls| - 1], ls[|ls| - 1];
    var before := Exec(w, front);
    assert ls == front + [l];
    RunKeepsInv(w, front);
    if Settled(before, b) {
      RowsAreCompleted(w, front, b);
      hide Inv, Enabled, Apply, Settled, Legal, CompletedWith;
      StepKeepsTaken(before, l, b);
      var i :| CompletedWith(w, front, i, b, before.taken[b.id]);
      CompletedStill(w, front, l, i, b, before.taken[b.id]);
    } else {
      hide Inv, Enabled, Settled, Legal, CompletedWith;
      CompletedNow(before, l, b);
      CompletedHere(w, front, l, b);
    }
  }

  lemma CompletedStill(w: World, front: seq<Label>, l: Label, i: nat, b: Backup, files: Files)
    requires CompletedWith(w, front, i, b, files)
    ensures CompletedWith(w, front + [l], i, b, files)
  {
    assert (front + [l])[..i] == front[..i];
  }

  lemma CompletedHere(w: World, front: seq<Label>, l: Label, b: Backup)
    requires l.OnSnapshot? && l.snap.Finish?
    requires var before := Exec(w, front);
             && l.snap.k < |before.rows| && before.rows[l.snap.k].(status := Done) == b
             && Live(b.server) in before.trees && !HasProcess(before, b.server)
    ensures CompletedWith(w, front + [l], |front|, b, Exec(w, front).trees[Live(b.server)])
  {
    assert (front + [l])[..|front|] == front;
  }

  /** Every snapshot is faithful: a completed row that was not there at the start, and from
      which nothing has been removed, shows the tree its server had when some step completed
      it, and the server had no process then. */
  lemma SnapshotsAreFaithful(w: World, ls: seq<Label>, b: Backup)
    requires Inv(w) && Legal(w, ls) && b !in w.rows && Settled(Exec(w, ls), b)
    ensures Snap(b.path) in Exec(w, ls).trees
    ensures exists i :: CompletedWith(w, ls, i, b, Exec(w, ls).trees[Snap(b.path)])
  {
    RunKeepsInv(w, ls);
    RowsAreCompleted(w, ls, b);
  }

  /** Step `i` of the run completed row `b` while its server, without a process, had `files`. */
  ghost predicate CompletedWith(w: World, ls: seq<Label>, i: nat, b: Backup, files: Files) {
    && i < |ls| && ls[i].OnSnapshot? && ls[i].snap.Finish?
    && var before := Exec(w, ls[..i]);
       && ls[i].snap.k < |before.rows| && before.rows[ls[i].snap.k].(status := Done) == b
       && Live(b.server) in before.trees && before.trees[Live(b.server)] == files && !HasProcess(before, b.server)
  }

  lemma StepKeepsTaken(w: World, l: Label, b: Backup)
    requires Inv(w) && Enabled(w, l) && Settled(w, b) && Settled(Apply(w, l), b)
    ensures b.id in w.taken && b.id in Apply(w, l).taken && Apply(w, l).taken[b.id] == w.taken[b.id]
  {
    match l
    case Env(e) => EnvKeepsInv(w, e);
    case OnServer(s, e) => ServerKeepsInv(w, s, e);
    case OnSnapshot(e) => SnapKeepsSettled(w, e, b);
    case Removal(e) =>
    case Reverting(k, e) => RevertKeepsInv(w, k, e);
  }

  lemma CompletedNow(w: World, l: Label, b: Backup)
    requires Inv(w) && Enabled(w, l) && !Settled(w, b) && Settled(Apply(w, l), b)
    ensures l.OnSnapshot? && l.snap.Finish? && l.snap.k < |w.rows| && w.rows[l.snap.k].(status := Done) == b
    ensures Live(b.server) in w.trees && !HasProcess(w, b.server)
    ensures b.id in Apply(w, l).taken && Apply(w, l).taken[b.id] == w.trees[Live(b.server)]
  {
    match l
    case Env(e) => EnvKeepsInv(w, e);
    case OnServer(s, e) => ServerKeepsInv(w, s, e);
    case OnSnapshot(e) => SettledBefore(w, e, b);
    case Removal(e) =>
    case Reverting(k, e) => RevertKeepsInv(w, k, e);
  }

  lemma StepOfRun(w: World, ls: seq<Label>, i: nat)
    requires Legal(w, ls) && i < |ls|
    ensures Enabled(Exec(w, ls[..i]), ls[i])
    ensures Exec(w, ls[..i + 1]) == Apply(Exec(w, ls[..i]), ls[i])
  {
    PrefixLegal(w, ls, i + 1);
    assert ls[..i + 1][..i] == ls[..i];
  }

  /** No snapshot is begun, filled or completed while its server has a process. */
  lemma {:induction false} SnapshotOnlyWhileStopped(w: World, ls: seq<Label>, i: nat)
    requires Legal(w, ls) && i < |ls| && ls[i].OnSnapshot? && (ls[i].snap.Insert? || ls[i].snap.Place? || ls[i].snap.Finish?)
    ensures var before, e := Exec(w, ls[..i]), ls[i].snap;
            && (e.Insert? ==> !HasProcess(before, e.row.server))
            && (!e.Insert? ==> e.k < |before.rows| && !HasProcess(before, before.rows[e.k].server))
  {
    StepOfRun(w, ls, i);
  }

  // ----- A deletion cut short --------------------------------------------------------

  /** Steps that remove files and directories, with the environment in between, and no commit. */
  ghost predicate Clearing(ls: seq<Label>) {
    forall l :: l in ls ==> l.Env? || (l.Removal? && !l.rem.Drop?)
  }

  predicate Sheds(l: Label, d: string) {
    l.Removal? && !l.rem.Drop? && l.rem.dir == d
  }

  lemma ClearStep(w: World, l: Label, d: string)
    requires Enabled(w, l) && (l.Env? || (l.Removal? && !l.rem.Drop?))
    ensures Apply(w, l).rows == w.rows && Apply(w, l).taken == w.taken
    ensures Snap(d) in Apply(w, l).trees ==> Snap(d) in w.trees
    ensures !Sheds(l, d) && Snap(d) in w.trees ==> Snap(d) in Apply(w, l).trees && Apply(w, l).trees[Snap(d)] == w.trees[Snap(d)]
    ensures Sheds(l, d) && Snap(d) in Apply(w, l).trees ==> Apply(w, l).trees[Snap(d)].Keys < w.trees[Snap(d)].Keys
  {
    match l
    case Env(e) => hide ApplySnap, ApplyRemoval, ApplyRevert, ApplyServer;
    case Removal(e) => hide ApplyEnv, ApplySnap, ApplyRevert, ApplyServer, Without;
  }

  /** The rows are as they were, and a directory is as it was exactly when no step removed
      from it. */
  lemma {:induction false} ClearingShrinks(w: World, ls: seq<Label>, d: string)
    requires Legal(w, ls) && Clearing(ls) && Snap(d) in w.trees
    ensures Exec(w, ls).rows == w.rows && Exec(w, ls).taken == w.taken
    ensures Snap(d) in Exec(w, ls).trees ==> Exec(w, ls).trees[Snap(d)].Keys <= w.trees[Snap(d)].Keys
    ensures (Snap(d) in Exec(w, ls).trees && Exec(w, ls).trees[Snap(d)] == w.trees[Snap(d)])
            <==> forall l :: l in ls ==> !Sheds(l, d)
    decreases |ls|
  {
    if ls != [] {
      var front, l := ls[..|ls| - 1], ls[|ls| - 1];
      assert ls == front + [l];
      ClearingShrinks(w, front, d);
      ClearStep(Exec(w, front), l, d);
      hide Enabled, Apply, Legal;
      assert forall x :: x in ls <==> x in front || x == l;
    }
  }

  /** A deletion cut short after `ls`: the row is still there and says `Done`, and its
      directory is complete if and only if nothing has been removed from it yet. */
  lemma {:induction false} CutDeletionCompleteIff(w: World, ls: seq<Label>, b: Backup)
    requires Inv(w) && Settled(w, b) && Legal(w, ls) && Clearing(ls)
    ensures b in Exec(w, ls).rows
    ensures (Snap(b.path) in Exec(w, ls).trees && Exec(w, ls).trees[Snap(b.path)] == w.taken[b.id])
            <==> forall l :: l in ls ==> !Sheds(l, b.path)
  {
    ClearingShrinks(w, ls, b.path);
  }

  /** Only an empty directory is removed. */
  lemma ShedKeepsDir(w: World, l: Label, d: string)
    requires Enabled(w, l) && Sheds(l, d) && Snap(d) in w.trees && w.trees[Snap(d)] != map[]
    ensures Snap(d) in Apply(w, l).trees
  {
    hide ApplyEnv, ApplyServer, ApplySnap, ApplyRevert;
  }

  /** The first removal from a directory that holds files leaves the directory there. */
  lemma {:induction false} FirstRemoval(w: World, ls: seq<Label>, d: string) returns (n: nat)
    requires Legal(w, ls) && Clearing(ls) && Snap(d) in w.trees && w.trees[Snap(d)] != map[]
    requires exists l :: l in ls && Sheds(l, d)
    ensures 0 < n <= |ls| && Sheds(ls[n - 1], d)
    ensures Snap(d) in Exec(w, ls[..n]).trees && Exec(w, ls[..n]).trees[Snap(d)] != w.trees[Snap(d)]
    decreases |ls|
  {
    hide Enabled, Apply;
    var front, l := ls[..|ls| - 1], ls[|ls| - 1];
    assert ls == front + [l];
    if exists x :: x in front && Sheds(x, d) {
      n := FirstRemoval(w, front, d);
      assert front[..n] == ls[..n];
    } else {
      n := |ls|;
      assert ls[..n] == ls;
      ClearingShrinks(w, front, d);
      assert Sheds(l, d);
      ShedKeepsDir(Exec(w, front), l, d);
      ClearStep(Exec(w, front), l, d);
    }
  }
}
