/** Removing snapshots: generation retention and the operator's delete. */
module Retention {
  import opened Options
  import opened Hardlinks
  import opened Worlds
  import opened Runs
  import opened Environments
  import opened Appliances
  import opened Snapshots

  // ----- Which rows retention removes --------------------------------------------------

  /** The generations of server `s`, oldest first. */
  function Generations(rows: seq<Backup>, s: nat): (g: seq<Backup>)
    ensures forall b :: b in g <==> b in rows && IsGeneration(b, s)
  {
    if rows == [] then []
    else
      Generations(rows[..|rows| - 1], s) + (if IsGeneration(rows[|rows| - 1], s) then [rows[|rows| - 1]] else [])
  }

  /** All but the newest `keep` generations; none when `keep` is not positive. */
  function Expired(rows: seq<Backup>, s: nat, keep: int): (e: seq<Backup>)
    ensures forall b :: b in e ==> b in rows && IsGeneration(b, s)
  {
    var g := Generations(rows, s);
    if keep <= 0 || |g| <= keep then [] else g[..|g| - keep]
  }

  function IdsOf(bs: seq<Backup>): set<nat> {
    set b | b in bs :: b.id
  }

  function PathsOf(bs: seq<Backup>): set<string> {
    set b | b in bs :: b.path
  }

  lemma WithoutSnoc(rows: seq<Backup>, last: Backup, ids: set<nat>)
    ensures last.id in ids ==> Without(rows + [last], ids) == Without(rows, ids)
    ensures last.id !in ids ==> Without(rows + [last], ids) == Without(rows, ids) + [last]
  {
    assert (rows + [last])[..|rows|] == rows;
    assert Without(rows, ids) + [] == Without(rows, ids);
  }

  lemma GenerationsSnoc(rows: seq<Backup>, last: Backup, s: nat)
    ensures !IsGeneration(last, s) ==> Generations(rows + [last], s) == Generations(rows, s)
    ensures IsGeneration(last, s) ==> Generations(rows + [last], s) == Generations(rows, s) + [last]
  {
    assert (rows + [last])[..|rows|] == rows;
    assert Generations(rows, s) + [] == Generations(rows, s);
  }

  lemma {:induction false} GenerationsWithout(rows: seq<Backup>, s: nat, ids: set<nat>)
    ensures Generations(Without(rows, ids), s) == Without(Generations(rows, s), ids)
    decreases |rows|
  {
    if rows != [] {
      hide Without, Generations, IsGeneration;
      var front, last := rows[..|rows| - 1], rows[|rows| - 1];
      assert rows == front + [last];
      GenerationsWithout(front, s, ids);
      WithoutSnoc(front, last, ids);
      GenerationsSnoc(front, last, s);
      GenerationsSnoc(Without(front, ids), last, s);
      WithoutSnoc(Generations(front, s), last, ids);
    }
  }

  lemma {:induction false} WithoutAll(rows: seq<Backup>, ids: set<nat>)
    requires forall b :: b in rows ==> b.id in ids
    ensures Without(rows, ids) == []
  {
    if rows != [] {
      WithoutAll(rows[..|rows| - 1], ids);
    }
  }

  lemma {:induction false} WithoutNone(rows: seq<Backup>, ids: set<nat>)
    requires ids == {}
    ensures Without(rows, ids) == rows
  {
    if rows != [] {
      WithoutNone(rows[..|rows| - 1], ids);
      assert rows[..|rows| - 1] + [rows[|rows| - 1]] == rows;
    }
  }

  lemma {:induction false} WithoutPrefix(g: seq<Backup>, n: nat)
    requires n <= |g| && forall i, j :: 0 <= i < j < |g| ==> g[i].id != g[j].id
    ensures Without(g, IdsOf(g[..n])) == g[n..]
    decreases |g|
  {
    if n == |g| {
      assert g[..n] == g;
      WithoutAll(g, IdsOf(g));
    } else {
      var front, last := g[..|g| - 1], g[|g| - 1];
      assert front[..n] == g[..n];
      WithoutPrefix(front, n);
      assert last.id !in IdsOf(g[..n]);
      assert front[n..] + [last] == g[n..];
    }
  }

  lemma {:induction false} GenerationsDistinct(rows: seq<Backup>, s: nat)
    requires Ordered(rows)
    ensures Ordered(Generations(rows, s))
  {
    if rows != [] {
      var front := rows[..|rows| - 1];
      GenerationsDistinct(front, s);
      var g := Generations(front, s);
      forall i | 0 <= i < |g|
        ensures g[i].created < rows[|rows| - 1].created && g[i].id != rows[|rows| - 1].id
      {
        assert g[i] in front;
      }
    }
  }

  lemma OthersNotExpired(rows: seq<Backup>, s: nat, keep: int, b: Backup)
    requires Ordered(rows) && b in rows && !IsGeneration(b, s)
    ensures b.id !in IdsOf(Expired(rows, s, keep))
  {
    var e := Expired(rows, s, keep);
    if b.id in IdsOf(e) {
      var v :| v in e && v.id == b.id;
      SameId(rows, v, b);
    }
  }

  /** Retention leaves exactly the newest `min(keep, n)` generations, and every row that is
      not one of this server's generations: pre-restore, zip, failed, in progress, foreign. */
  lemma RetentionKeepsNewest(rows: seq<Backup>, s: nat, keep: int)
    requires Ordered(rows) && keep >= 1
    ensures var g, kept := Generations(rows, s), Without(rows, IdsOf(Expired(rows, s, keep)));
            && Generations(kept, s) == g[|g| - (if |g| <= keep then |g| else keep)..]
            && (forall b :: b in rows && !IsGeneration(b, s) ==> b in kept)
            && (forall b :: b in kept ==> b in rows)
  {
    hide Generations, Without, IsGeneration, IdsOf;
    var g, e := Generations(rows, s), Expired(rows, s, keep);
    GenerationsDistinct(rows, s);
    GenerationsWithout(rows, s, IdsOf(e));
    WithoutPrefix(g, |e|);
    assert g[..|e|] == e;
    forall b | b in rows && !IsGeneration(b, s) ensures b.id !in IdsOf(e) {
      OthersNotExpired(rows, s, keep, b);
    }
  }

  /** The completed normal rsync snapshots of server `s`. */
  function Finished(rows: seq<Backup>, s: nat): set<Backup> {
    set b | b in rows && b.server == s && b.means == Rsync && b.kind == Normal && b.status == Done
  }

  /** Of the rows, those stay that are of another server, zip, pre-restore, failed or still in
      progress, and the newest `keep` of the rest; nothing is added. */
  predicate Retained(rows: seq<Backup>, kept: seq<Backup>, s: nat, keep: int) {
    && (forall b :: b in kept ==> b in rows)
    && (forall b :: b in rows && (b.server != s || b.means.Zip? || b.kind.PreRestore? || !b.status.Done?) ==> b in kept)
    && |Finished(kept, s)| == (if |Finished(rows, s)| <= keep then |Finished(rows, s)| else keep)
    && forall b, c :: b in Finished(kept, s) && c in rows && c !in kept ==> c.created < b.created
  }

  lemma FinishedAreGenerations(rows: seq<Backup>, s: nat)
    requires Ordered(rows)
    ensures forall b :: b in Finished(rows, s) <==> b in Generations(rows, s)
    ensures |Finished(rows, s)| == |Generations(rows, s)|
  {
    var g := Generations(rows, s);
    GenerationsDistinct(rows, s);
    assert Finished(rows, s) == set b | b in g;
    hide Finished, Generations;
    SizeOfOrdered(g);
  }

  lemma {:induction false} SizeOfOrdered(g: seq<Backup>)
    requires Ordered(g)
    ensures |(set b | b in g)| == |g|
    decreases |g|
  {
    if g != [] {
      var front, last := g[..|g| - 1], g[|g| - 1];
      LastIsNew(g);
      hide Ordered;
      SizeOfOrdered(front);
      assert (set b | b in g) == (set b | b in front) + {last};
    }
  }

  lemma LastIsNew(g: seq<Backup>)
    requires Ordered(g) && g != []
    ensures Ordered(g[..|g| - 1]) && g[|g| - 1] !in g[..|g| - 1]
  {
  }

  lemma WithoutIsOrdered(rows: seq<Backup>, s: nat, keep: int)
    requires Ordered(rows)
    ensures Ordered(Without(rows, IdsOf(Expired(rows, s, keep))))
  {
    WithoutKeepsOrder(rows, IdsOf(Expired(rows, s, keep)));
  }

  /** What retention leaves, told from the rows' own fields. */
  lemma RetentionRetains(rows: seq<Backup>, s: nat, keep: int)
    requires Ordered(rows) && keep >= 1
    ensures Retained(rows, Without(rows, IdsOf(Expired(rows, s, keep))), s, keep)
  {
    var kept := Without(rows, IdsOf(Expired(rows, s, keep)));
    ExpiredOlder(rows, s, keep);
    OthersStay(rows, s, keep);
    hide *;
    RetentionKeepsNewest(rows, s, keep);
    WithoutIsOrdered(rows, s, keep);
    FinishedAreGenerations(rows, s);
    FinishedAreGenerations(kept, s);
    RetainedFrom(rows, kept, s, keep);
  }

  lemma RetainedFrom(rows: seq<Backup>, kept: seq<Backup>, s: nat, keep: int)
    requires forall b :: b in kept ==> b in rows
    requires forall b :: b in rows && (b.server != s || b.means.Zip? || b.kind.PreRestore? || !b.status.Done?) ==> b in kept
    requires |Finished(kept, s)| == (if |Finished(rows, s)| <= keep then |Finished(rows, s)| else keep)
    requires forall b, c :: b in Finished(kept, s) && c in rows && c !in kept ==> c.created < b.created
    ensures Retained(rows, kept, s, keep)
  {
    hide Finished;
  }

  lemma OthersStay(rows: seq<Backup>, s: nat, keep: int)
    requires Ordered(rows)
    ensures forall b :: b in rows && (b.server != s || b.means.Zip? || b.kind.PreRestore? || !b.status.Done?) ==>
              b in Without(rows, IdsOf(Expired(rows, s, keep)))
  {
    forall b | b in rows && (b.server != s || b.means.Zip? || b.kind.PreRestore? || !b.status.Done?)
      ensures b.id !in IdsOf(Expired(rows, s, keep))
    {
      assert !IsGeneration(b, s);
      hide Expired, IdsOf, Ordered;
      OthersNotExpired(rows, s, keep, b);
    }
    hide Expired, IdsOf, Ordered;
  }

  lemma ExpiredOlder(rows: seq<Backup>, s: nat, keep: int)
    requires Ordered(rows) && keep >= 1
    ensures var kept := Without(rows, IdsOf(Expired(rows, s, keep)));
            forall b, c :: b in Finished(kept, s) && c in rows && c !in kept ==> c.created < b.created
  {
    var g, e := Generations(rows, s), Expired(rows, s, keep);
    var kept := Without(rows, IdsOf(e));
    ExpiredIsHead(rows, s, keep);
    hide *;
    RetentionKeepsNewest(rows, s, keep);
    WithoutIsOrdered(rows, s, keep);
    FinishedAreGenerations(kept, s);
    GenerationsDistinct(rows, s);
    forall b, c | b in Finished(kept, s) && c in rows && c !in kept ensures c.created < b.created {
      DroppedIsExpired(rows, e, c);
      OlderIsBefore(g, |e|, c, b);
    }
  }

  lemma ExpiredIsHead(rows: seq<Backup>, s: nat, keep: int)
    requires keep >= 1
    ensures var g, e := Generations(rows, s), Expired(rows, s, keep);
            && |e| <= |g| && e == g[..|e|] && (forall b :: b in e ==> b in rows)
            && g[|g| - (if |g| <= keep then |g| else keep)..] == g[|e|..]
  {
    hide Generations;
  }

  lemma DroppedIsExpired(rows: seq<Backup>, e: seq<Backup>, c: Backup)
    requires Ordered(rows) && c in rows && c !in Without(rows, IdsOf(e)) && forall b :: b in e ==> b in rows
    ensures c in e
  {
    var v :| v in e && v.id == c.id;
    SameId(rows, v, c);
  }

  lemma OlderIsBefore(g: seq<Backup>, n: nat, c: Backup, b: Backup)
    requires Ordered(g) && n <= |g| && c in g[..n] && b in g[n..]
    ensures c.created < b.created
  {
    var i :| 0 <= i < n && g[..n][i] == c;
    var j :| 0 <= j < |g| - n && g[n..][j] == b;
    assert g[i] == c && g[n + j] == b;
  }

  lemma SameId(rows: seq<Backup>, a: Backup, b: Backup)
    requires Ordered(rows) && a in rows && b in rows && a.id == b.id
    ensures a == b
  {
    var i :| 0 <= i < |rows| && rows[i] == a;
    var j :| 0 <= j < |rows| && rows[j] == b;
  }

  /** The generation just completed is never among the expired. */
  lemma NewestIsKept(rows: seq<Backup>, s: nat, keep: int, row: Backup)
    requires Ordered(rows + [row])
    ensures row.id !in IdsOf(Expired(rows + [row], s, keep))
  {
    var all := rows + [row];
    assert all[..|rows|] == rows;
    var g, e := Generations(all, s), Expired(all, s, keep);
    if row.id in IdsOf(e) {
      var v :| v in e && v.id == row.id;
      SameId(all, v, row);
      assert g[|g| - 1] == row;
      GenerationsDistinct(all, s);
    }
  }

  // ----- Removing a directory ----------------------------------------------------------

  /** Only directories in `ds` may have lost files, or gone; the table is as it was, and
      settled snapshots elsewhere are still settled. */
  ghost predicate Removed(w: World, w': World, ds: set<string>) {
    && Frame(w, w', ds) && w'.rows == w.rows && w'.taken == w.taken
    && (forall d :: d in ds && Snap(d) in w'.trees ==> Snap(d) in w.trees && w'.trees[Snap(d)].Keys <= w.trees[Snap(d)].Keys)
    && forall b :: Settled(w, b) && b.path !in ds ==> Settled(w', b)
  }

  lemma RemovedTransitive(a: World, b: World, c: World, d1: set<string>, d2: set<string>, ds: set<string>)
    requires Removed(a, b, d1) && Removed(b, c, d2) && d1 <= ds && d2 <= ds
    ensures Removed(a, c, ds)
  {
    hide Settled;
    FrameTransitive(a, b, c, d1, d2, ds);
  }

  lemma EnvRemoves(a: World, b: World)
    requires EnvFrame(a, b)
    ensures Removed(a, b, {})
  {
    EnvIsFramed(a, b);
  }

  lemma StepRemoves(w: World, e: RemovalStep)
    requires Ledger(w) && RemovalEnabled(w, e) && !e.Drop?
    ensures Removed(w, ApplyRemoval(w, e), {e.dir})
  {
    forall b | Settled(w, b) && b.path != e.dir ensures Settled(ApplyRemoval(w, e), b) {
      TornElsewhere(w, e.dir, b);
    }
  }

  /** Steps that remove from the directories in `ds`, with the environment in between. */
  ghost predicate Clears(before: seq<Label>, after: seq<Label>, ds: set<string>) {
    && before <= after
    && forall i :: |before| <= i < |after| ==>
         after[i].Env? || (after[i].Removal? && !after[i].rem.Drop? && after[i].rem.dir in ds)
  }

  lemma ClearsNothing(log: seq<Label>, ds: set<string>)
    ensures Clears(log, log, ds)
  {
  }

  lemma ClearsTransitive(a: seq<Label>, b: seq<Label>, c: seq<Label>, d1: set<string>, d2: set<string>, ds: set<string>)
    requires Clears(a, b, d1) && Clears(b, c, d2) && d1 <= ds && d2 <= ds
    ensures Clears(a, c, ds)
  {
  }

  lemma ClearsMore(before: seq<Label>, after: seq<Label>, e: RemovalStep, ds: set<string>)
    requires Clears(before, after, ds) && !e.Drop? && e.dir in ds
    ensures Clears(before, after + [Removal(e)], ds)
  {
  }

  lemma WaitingClears(before: seq<Label>, after: seq<Label>, ds: set<string>)
    requires Only(before, after, {Outside})
    ensures Clears(before, after, ds)
  {
    assert forall i :: |before| <= i < |after| ==> SortOf(after[i]) in {Outside};
  }

  /** The order of a deletion: files and directories first, and then, as the very last step,
      the commit that drops the rows. */
  ghost predicate DropsLast(before: seq<Label>, after: seq<Label>, ds: set<string>, ids: set<nat>) {
    |before| < |after| && Clears(before, after[..|after| - 1], ds) && after[|after| - 1] == Removal(Drop(ids))
  }

  lemma DropIsLast(before: seq<Label>, after: seq<Label>, ds: set<string>, ids: set<nat>)
    requires Clears(before, after, ds)
    ensures DropsLast(before, after + [Removal(Drop(ids))], ds, ids)
    ensures Only(before, after + [Removal(Drop(ids))], {Outside, Removing})
  {
    assert (after + [Removal(Drop(ids))])[..|after|] == after;
  }

  /** rmtree with errors ignored: when it does not complete, some files, and so the
      directory, may be left behind. */
  method RemoveTree(a: Appliance, d: string, completes: bool)
    requires a.Valid()
    modifies a
    ensures a.Valid() && Removed(old(a.W()), a.W(), {d}) && Clears(old(a.log), a.log, {d})
    ensures completes ==> Snap(d) !in a.W().trees
  {
    hide Appliance.Valid, Appliance.Stored, Removed, EnvFrame, Settled, Clears;
    ghost var w, log := a.W(), a.log;
    NothingRemoved(w, {d});
    ClearsNothing(log, {d});
    if Snap(d) in a.fs.dirs {
      a.KeysShown(Snap(d));
      var todo := a.fs.dirs[Snap(d)].Keys;
      while todo != {}
        invariant a.Valid() && Removed(w, a.W(), {d}) && Clears(log, a.log, {d})
        invariant Snap(d) in a.W().trees && (completes ==> a.W().trees[Snap(d)].Keys <= todo)
      {
        var p :| p in todo;
        ghost var l1 := a.log;
        TryRemove(a, d, p, completes, w);
        ClearsTransitive(log, l1, a.log, {d}, {d}, {d});
        todo := todo - {p};
      }
      a.KeysShown(Snap(d));
      var here: bool := *;
      if completes || (here && a.fs.dirs[Snap(d)] == map[]) {
        ghost var l2 := a.log;
        RemoveEmpty(a, d, w);
        ClearsTransitive(log, l2, a.log, {d}, {d}, {d});
      }
    }
  }

  lemma NothingRemoved(w: World, ds: set<string>)
    ensures Removed(w, w, ds)
  {
  }

  lemma EnvKeepsSnap(w: World, w': World, d: string)
    requires EnvFrame(w, w') && Snap(d) in w.trees
    ensures Snap(d) in w'.trees && w'.trees[Snap(d)] == w.trees[Snap(d)]
  {
  }

  method TryRemove(a: Appliance, d: string, p: string, completes: bool, ghost w: World)
    requires a.Valid() && Removed(w, a.W(), {d}) && Snap(d) in a.W().trees
    modifies a
    ensures a.Valid() && Removed(w, a.W(), {d}) && Clears(old(a.log), a.log, {d})
    ensures Snap(d) in a.W().trees && a.W().trees[Snap(d)].Keys <= old(a.W()).trees[Snap(d)].Keys
    ensures completes ==> p !in a.W().trees[Snap(d)]
  {
    hide Appliance.Valid, Appliance.Stored, Removed, EnvFrame, Settled, IdsAt, Only, Clears, Advance, SameSnaps;
    ghost var w1, log := a.W(), a.log;
    a.Elapse(0.0);
    WaitingClears(log, a.log, {d});
    ClearsMore(log, a.log, Remove(d, p), {d});
    EnvRemoves(w1, a.W());
    EnvKeepsSnap(w1, a.W(), d);
    RemovedTransitive(w, w1, a.W(), {d}, {}, {d});
    a.KeysShown(Snap(d));
    var here: bool := *;
    if (completes || here) && p in a.fs.dirs[Snap(d)] {
      ghost var w2 := a.W();
      a.Tables();
      a.RemoveFile(d, p);
      StepRemoves(w2, Remove(d, p));
      RemovedTransitive(w, w2, a.W(), {d}, {d}, {d});
    }
  }

  method RemoveEmpty(a: Appliance, d: string, ghost w: World)
    requires a.Valid() && Removed(w, a.W(), {d}) && Snap(d) in a.fs.dirs && a.fs.dirs[Snap(d)] == map[]
    modifies a
    ensures a.Valid() && Removed(w, a.W(), {d}) && Clears(old(a.log), a.log, {d})
    ensures Snap(d) !in a.W().trees
  {
    hide Appliance.Valid, Appliance.Stored, Removed, EnvFrame, Settled, IdsAt, Clears;
    ghost var w2 := a.W();
    a.KeysShown(Snap(d));
    a.Tables();
    ClearsNothing(a.log, {d});
    ClearsMore(a.log, a.log, RemoveDir(d), {d});
    a.RemoveDirectory(d);
    StepRemoves(w2, RemoveDir(d));
    RemovedTransitive(w, w2, a.W(), {d}, {d}, {d});
  }

  // ----- Pruning -----------------------------------------------------------------------

  function NewestFirst(g: seq<Backup>): (r: seq<Backup>)
    ensures |r| == |g| && forall i :: 0 <= i < |g| ==> r[i] == g[|g| - 1 - i]
  {
    seq(|g|, i requires 0 <= i < |g| => g[|g| - 1 - i])
  }

  /** The rows at positions `keep` up to `i` of the list, newest first. */
  function Selected(r: seq<Backup>, keep: nat, i: nat): seq<Backup> {
    if keep <= i <= |r| then r[keep..i] else []
  }

  lemma TailOfReverse(g: seq<Backup>, keep: nat, b: Backup)
    requires keep <= |g|
    ensures b in NewestFirst(g)[keep..] <==> b in g[..|g| - keep]
  {
    var r := NewestFirst(g);
    if b in r[keep..] {
      var i :| keep <= i < |r| && r[i] == b;
      assert g[..|g| - keep][|g| - 1 - i] == b;
    }
    if b in g[..|g| - keep] {
      var i :| 0 <= i < |g| - keep && g[i] == b;
      assert r[keep..][|g| - 1 - i - keep] == b;
    }
  }

  lemma ExpiredIsTail(rows: seq<Backup>, s: nat, keep: nat, i: nat)
    requires keep >= 1
    requires var n := |Generations(rows, s)|; i == if keep <= n then n else keep
    ensures var t, e := Selected(NewestFirst(Generations(rows, s)), keep, i), Expired(rows, s, keep);
            IdsOf(t) == IdsOf(e) && PathsOf(t) == PathsOf(e)
  {
    hide Generations, NewestFirst;
    var g := Generations(rows, s);
    var t, e := Selected(NewestFirst(g), keep, i), Expired(rows, s, keep);
    if keep <= |g| {
      assert t == NewestFirst(g)[keep..];
      forall b ensures b in t <==> b in g[..|g| - keep] { TailOfReverse(g, keep, b); }
      assert |g| == keep ==> g[..|g| - keep] == [];
    }
    assert forall b :: b in t <==> b in e;
  }

  lemma NothingFramed(w: World, ds: set<string>)
    ensures Frame(w, w, ds)
  {
  }

  /** The expired rows are gone, and so are their directories if every removal completed;
      nothing else is. */
  ghost predicate Pruned(w: World, w': World, s: nat, keep: int, completes: bool) {
    var e := Expired(w.rows, s, keep);
    && w'.rows == Without(w.rows, IdsOf(e)) && Frame(w, w', PathsOf(e))
    && (completes ==> Gone(w', PathsOf(e)))
    && forall b :: Settled(w, b) && b.id !in IdsOf(e) && b.path !in PathsOf(e) ==>
         Settled(w', b) && (b.id in w.taken ==> b.id in w'.taken && w'.taken[b.id] == w.taken[b.id])
  }

  predicate Gone(w: World, ds: set<string>) {
    forall d :: d in ds ==> Snap(d) !in w.trees
  }

  lemma GoneStays(w: World, w': World, ds: set<string>, more: set<string>)
    requires Gone(w, ds) && Removed(w, w', more)
    ensures Gone(w', ds)
  {
  }

  lemma PrunedByDrop(w: World, w1: World, s: nat, keep: int, completes: bool)
    requires Removed(w, w1, PathsOf(Expired(w.rows, s, keep)))
    requires completes ==> Gone(w1, PathsOf(Expired(w.rows, s, keep)))
    ensures Pruned(w, ApplyRemoval(w1, Drop(IdsOf(Expired(w.rows, s, keep)))), s, keep, completes)
  {
    var e := Expired(w.rows, s, keep);
    var w2 := ApplyRemoval(w1, Drop(IdsOf(e)));
    FrameTransitive(w, w1, w2, PathsOf(e), {}, PathsOf(e));
  }

  lemma NothingPruned(w: World, s: nat, keep: int, completes: bool)
    requires keep <= 0
    ensures Pruned(w, w, s, keep, completes)
  {
    hide Without, Frame;
    WithoutNone(w.rows, IdsOf([]));
    NothingFramed(w, PathsOf([]));
  }

  /** Remove the directories of all but the newest generations, then, in one commit, their rows. */
  method PruneGenerations(a: Appliance, s: nat, completes: bool)
    requires a.Valid() && s in a.servers
    modifies a
    ensures a.Valid() && Pruned(old(a.W()), a.W(), s, old(a.servers[s].settings.keepGenerations), completes)
    ensures Only(old(a.log), a.log, {Outside, Removing})
    ensures forall b :: b in old(a.rows) && (b.server != s || b.means.Zip? || b.kind.PreRestore? || !b.status.Done?) ==>
              b in a.rows
    ensures old(a.servers[s].settings.keepGenerations) >= 1 ==>
              Retained(old(a.rows), a.rows, s, old(a.servers[s].settings.keepGenerations))
    ensures old(a.servers[s].settings.keepGenerations) <= 0 ==> a.log == old(a.log) && a.rows == old(a.rows)
    ensures old(a.servers[s].settings.keepGenerations) > 0 ==>
              var e := Expired(old(a.rows), s, old(a.servers[s].settings.keepGenerations));
              DropsLast(old(a.log), a.log, PathsOf(e), IdsOf(e))
  {
    hide Appliance.Valid, Appliance.Stored, Only, Clears, DropsLast, Removed, Pruned, Generations, Expired, Selected, IdsOf, PathsOf, Gone, Without, Finished;
    ghost var w, log := a.W(), a.log;
    NoneYet(log, {Outside, Removing});
    var keep := a.servers[s].settings.keepGenerations;
    if keep <= 0 {
      NothingPruned(w, s, keep, completes);
      return;
    }
    var normals := NewestFirst(Generations(a.rows, s));
    var ids: set<nat> := {};
    NoneSelected(w, normals, keep);
    ClearsNothing(log, PathsOf(Selected(normals, keep, keep)));
    var i := keep;
    while i < |normals|
      invariant keep <= i && (i <= |normals| || i == keep)
      invariant a.Valid() && a.rows == w.rows && ids == IdsOf(Selected(normals, keep, i))
      invariant Removed(w, a.W(), PathsOf(Selected(normals, keep, i)))
      invariant completes ==> Gone(a.W(), PathsOf(Selected(normals, keep, i)))
      invariant Clears(log, a.log, PathsOf(Selected(normals, keep, i)))
    {
      ghost var w1, l1, ds := a.W(), a.log, PathsOf(Selected(normals, keep, i));
      RemoveTree(a, normals[i].path, completes);
      OneMoreSelected(normals, keep, i);
      ClearsTransitive(log, l1, a.log, ds, {normals[i].path}, PathsOf(Selected(normals, keep, i + 1)));
      if completes {
        GoneStays(w1, a.W(), ds, {normals[i].path});
        OneMoreGone(a.W(), ds, normals[i].path);
      }
      RemovedTransitive(w, w1, a.W(), ds, {normals[i].path}, PathsOf(Selected(normals, keep, i + 1)));
      RemovedKeepsRows(w, a.W(), PathsOf(Selected(normals, keep, i + 1)));
      ids := ids + {normals[i].id};
      i := i + 1;
    }
    ghost var w1 := a.W();
    a.Tables();
    RetentionRetains(w.rows, s, keep);
    ExpiredIsTail(w.rows, s, keep, i);
    PrunedByDrop(w, w1, s, keep, completes);
    DropIsLast(log, a.log, PathsOf(Expired(w.rows, s, keep)), ids);
    a.DropRows(ids);
  }

  lemma OneMoreGone(w: World, ds: set<string>, d: string)
    requires Gone(w, ds) && Snap(d) !in w.trees
    ensures Gone(w, ds + {d})
  {
  }

  lemma NoneSelected(w: World, r: seq<Backup>, keep: nat)
    ensures Gone(w, PathsOf(Selected(r, keep, keep)))
    ensures IdsOf(Selected(r, keep, keep)) == {} && Removed(w, w, PathsOf(Selected(r, keep, keep)))
  {
    NothingRemoved(w, PathsOf(Selected(r, keep, keep)));
  }

  lemma OneMoreSelected(r: seq<Backup>, keep: nat, i: nat)
    requires keep <= i < |r|
    ensures IdsOf(Selected(r, keep, i + 1)) == IdsOf(Selected(r, keep, i)) + {r[i].id}
    ensures PathsOf(Selected(r, keep, i + 1)) == PathsOf(Selected(r, keep, i)) + {r[i].path}
  {
    assert r[keep..i + 1] == r[keep..i] + [r[i]];
  }

  lemma RemovedKeepsRows(w: World, w': World, ds: set<string>)
    requires Removed(w, w', ds)
    ensures w'.rows == w.rows
  {
  }

  /** When its removals complete, a prune leaves the directory of a completed snapshot it does
      not expire as it is if and only if no expired row names that directory. */
  lemma PruneSparesIff(w: World, w': World, s: nat, keep: int, b: Backup)
    requires Pruned(w, w', s, keep, true) && Intact(w) && Intact(w')
    requires Settled(w, b) && b.id !in IdsOf(Expired(w.rows, s, keep))
    ensures b in w'.rows && Snap(b.path) in w.trees
    ensures Snap(b.path) in w'.trees <==> b.path !in PathsOf(Expired(w.rows, s, keep))
    ensures Snap(b.path) in w'.trees ==> Settled(w', b) && w'.trees[Snap(b.path)] == w.trees[Snap(b.path)]
  {
    hide Expired, IdsOf, PathsOf, Frame;
  }

  /** One may name it: a removal is cut off before its commit, and a pre-restore snapshot gets
      the directory that is now free.  The next prune removes it. */
  lemma PruneCanTakeAnother(settings: Settings, p: string, q: string) returns (w: World, ls: seq<Label>, b: Backup)
    requires settings.keepGenerations == 1 && p != q
    ensures var w' := Exec(w, ls);
            && Inv(w) && Owned(w) && Legal(w, ls) && 1 in w'.servers && w'.servers[1].settings == settings
            && Settled(w', b) && b.kind.PreRestore?
            && var e := Expired(w'.rows, 1, 1); b.id !in IdsOf(e) && b.path in PathsOf(e)
  {
    var old1, old2 := Backup(1, 1, p, Rsync, Normal, Done, 0.0), Backup(2, 1, q, Rsync, Normal, Done, 1.0);
    w := World(map[1 := Server(None, Stopped, None, settings)], map[],
               map[Live(1) := map[], Snap(p) := map[], Snap(q) := map[]],
               [old1, old2], 2.0, [], map[1 := map[], 2 := map[]], {});
    var row := Backup(3, 1, p, Rsync, PreRestore, InProgress, 2.0);
    CutWorld(w, old1, old2, row);
    assert Legal(w, []) && Exec(w, []) == w;
    RunSnoc(w, [], Removal(RemoveDir(p)));
    b := row.(status := Done);
    hide Exec, Legal, Inv, Owned, Settled, Expired, Apply, Enabled, SnapEnabled, RemovalEnabled, ApplyRemoval;
    ls := SnapshotOfNothing(w, [] + [Removal(RemoveDir(p))], row);
    assert [old1, old2] + [b] == [old1, old2, b];
    OneExpired([old1, old2, b], old1, old2, b);
  }

  lemma CutWorld(w: World, old1: Backup, old2: Backup, row: Backup)
    requires w.rows == [old1, old2] && old1.id == 1 && old2.id == 2 && row.id == 3 && w.procs == map[] && w.torn == {}
    requires old1.created < old2.created < row.created == w.now && row.path == old1.path != old2.path
    requires w.trees == map[Live(1) := map[], Snap(old1.path) := map[], Snap(old2.path) := map[]]
    requires w.taken == map[1 := map[], 2 := map[]] && row.server == 1 && 1 in w.servers
    requires row.means.Rsync? && row.status.InProgress?
    ensures Inv(w) && Owned(w) && Enabled(w, Removal(RemoveDir(old1.path)))
    ensures var w1 := Apply(w, Removal(RemoveDir(old1.path)));
            && w1.rows == w.rows && w1.servers == w.servers && SnapEnabled(w1, Insert(row)) && w1.trees[Live(1)] == map[]
  {
  }

  lemma OneExpired(rows: seq<Backup>, old1: Backup, old2: Backup, b: Backup)
    requires rows == [old1, old2, b] && IsGeneration(old1, 1) && IsGeneration(old2, 1) && b.kind.PreRestore? && b.id != old1.id
    ensures b.id !in IdsOf(Expired(rows, 1, 1)) && old1.path in PathsOf(Expired(rows, 1, 1))
  {
    GenerationsSnoc([], old1, 1);
    GenerationsSnoc([old1], old2, 1);
    GenerationsSnoc([old1, old2], b, 1);
    assert [] + [old1] == [old1] && [old1] + [old2] == [old1, old2] && [old1, old2] + [b] == rows;
    assert Generations(rows, 1) == [old1, old2];
    assert Expired(rows, 1, 1) == [old1];
  }

  /** A snapshot of a server without files: its row, its directory, and the end. */
  lemma SnapshotOfNothing(w: World, ls: seq<Label>, row: Backup) returns (more: seq<Label>)
    requires Legal(w, ls) && SnapEnabled(Exec(w, ls), Insert(row)) && Exec(w, ls).trees[Live(row.server)] == map[]
    ensures Legal(w, more)
    ensures var b, w', w1 := row.(status := Done), Exec(w, more), Exec(w, ls);
            w'.rows == w1.rows + [b] && w'.servers == w1.servers && Settled(w', b)
  {
    var w1, k, b := Exec(w, ls), |Exec(w, ls).rows|, row.(status := Done);
    InsertFacts(w1, row);
    hide Exec, Legal, SnapEnabled, ApplySnap, Settled, HasProcess;
    var l1, l2, l3 := OnSnapshot(Insert(row)), OnSnapshot(MakeDir(k)), OnSnapshot(Finish(k));
    var w2 := Apply(w1, l1);
    var w3 := Apply(w2, l2);
    RunSnoc(w, ls, l1);
    RunSnoc(w, ls + [l1], l2);
    RunSnoc(w, ls + [l1] + [l2], l3);
    more := ls + [l1] + [l2] + [l3];
  }

  lemma InsertFacts(w: World, row: Backup)
    requires SnapEnabled(w, Insert(row)) && w.trees[Live(row.server)] == map[]
    ensures var k, w1 := |w.rows|, ApplySnap(w, Insert(row));
            && SnapEnabled(w1, MakeDir(k))
            && var w2 := ApplySnap(w1, MakeDir(k));
            && SnapEnabled(w2, Finish(k))
            && var w3, b := ApplySnap(w2, Finish(k)), row.(status := Done);
            w3.rows == w.rows + [b] && w3.servers == w.servers && Settled(w3, b)
  {
    var k, b := |w.rows|, row.(status := Done);
    assert (w.rows + [row])[k := b] == w.rows + [b];
    assert (w.rows + [b])[k] == b;
  }

  // ----- Deleting ------------------------------------------------------------------------

  /** The operator's delete of one row and whatever directory it names. */
  method DeleteBackup(a: Appliance, s: nat, b: Backup, completes: bool) returns (deleted: bool)
    requires a.Valid() && b in a.rows
    modifies a
    ensures a.Valid() && Only(old(a.log), a.log, {Outside, Removing})
    ensures deleted <==> b.server == s
    ensures !deleted ==> a.W() == old(a.W())
    ensures deleted && completes ==> Snap(b.path) !in a.W().trees
    ensures deleted ==> DropsLast(old(a.log), a.log, {b.path}, {b.id})
    ensures deleted ==> a.rows == Without(old(a.rows), {b.id}) && Frame(old(a.W()), a.W(), {b.path})
    ensures deleted ==> forall r :: Settled(old(a.W()), r) && r.id != b.id && r.path != b.path ==> Settled(a.W(), r)
  {
    hide Appliance.Valid, Removed, Frame, Clears, DropsLast, Only;
    NoneYet(a.log, {Outside, Removing});
    if b.server != s {
      return false;
    }
    ghost var w, log := a.W(), a.log;
    RemoveTree(a, b.path, completes);
    DeletedByDrop(w, a.W(), b);
    DropIsLast(log, a.log, {b.path}, {b.id});
    a.DropRows({b.id});
    return true;
  }

  lemma DeletedByDrop(w: World, w1: World, b: Backup)
    requires Removed(w, w1, {b.path})
    ensures var w2 := ApplyRemoval(w1, Drop({b.id}));
            && w2.rows == Without(w.rows, {b.id}) && Frame(w, w2, {b.path})
            && forall r :: Settled(w, r) && r.id != b.id && r.path != b.path ==> Settled(w2, r)
  {
    FrameTransitive(w, w1, ApplyRemoval(w1, Drop({b.id})), {b.path}, {}, {b.path});
  }

  // ----- A deletion cut short ------------------------------------------------------------

  /** The steps between the start of a deletion and a crash before its commit. */
  lemma CutRun(start: World, before: seq<Label>, after: seq<Label>, ds: set<string>, ids: set<nat>, n: nat)
    requires Inv(start) && Legal(start, after) && DropsLast(before, after, ds, ids) && |before| <= n < |after|
    ensures Inv(Exec(start, before)) && Legal(Exec(start, before), after[|before|..n]) && Clearing(after[|before|..n])
    ensures Exec(start, after[..n]) == Exec(Exec(start, before), after[|before|..n])
  {
    hide Legal, Exec, Inv, Clearing;
    CutPieces(before, after, ds, ids, n);
    PrefixLegal(start, after, n);
    PrefixLegal(start, after, |before|);
    RunKeepsInv(start, before);
    Split(start, after[..n], |before|);
  }

  lemma CutPieces(before: seq<Label>, after: seq<Label>, ds: set<string>, ids: set<nat>, n: nat)
    requires DropsLast(before, after, ds, ids) && |before| <= n < |after|
    ensures after[..|before|] == before && after[..n][..|before|] == before
    ensures after[..n][|before|..] == after[|before|..n] && Clearing(after[|before|..n])
  {
    var front := after[..|after| - 1];
    assert front[..|before|] == before;
    assert forall i :: 0 <= i < |before| ==> front[i] == after[i] == before[i];
    forall l | l in after[|before|..n] ensures l.Env? || (l.Removal? && !l.rem.Drop?) {
      var i :| 0 <= i < |after[|before|..n]| && after[|before|..n][i] == l;
      assert front[|before| + i] == l;
    }
  }

  /** Cut a prune or a delete off anywhere before its commit: each row it was to drop is still
      there and says `Done`, and its directory is complete if and only if nothing has been
      removed from it. */
  lemma CutDeletion(start: World, before: seq<Label>, after: seq<Label>, ds: set<string>, ids: set<nat>, n: nat, b: Backup)
    requires Inv(start) && Legal(start, after) && DropsLast(before, after, ds, ids) && |before| <= n < |after|
    requires Settled(Exec(start, before), b)
    ensures b in Exec(start, after[..n]).rows && b.id in Exec(start, before).taken
    ensures (&& Snap(b.path) in Exec(start, after[..n]).trees
             && Exec(start, after[..n]).trees[Snap(b.path)] == Exec(start, before).taken[b.id])
            <==> forall l :: l in after[|before|..n] ==> !Sheds(l, b.path)
  {
    CutRun(start, before, after, ds, ids, n);
    CutDeletionCompleteIff(Exec(start, before), after[|before|..n], b);
  }

  /** Every prune or delete that goes through has such a moment: whenever the directory of a
      completed snapshot that held files is gone at its end, a crash somewhere before the
      commit leaves an ok row over a directory that exists and has lost a file. */
  lemma DeletionCanTear(start: World, before: seq<Label>, after: seq<Label>, ds: set<string>, ids: set<nat>, b: Backup)
    returns (n: nat)
    requires Inv(start) && Legal(start, after) && DropsLast(before, after, ds, ids)
    requires Settled(Exec(start, before), b) && b.id in Exec(start, before).taken
    requires Exec(start, before).taken[b.id] != map[] && Snap(b.path) !in Exec(start, after).trees
    ensures |before| < n < |after| && b in Exec(start, after[..n]).rows
    ensures Snap(b.path) in Exec(start, after[..n]).trees
    ensures Exec(start, after[..n]).trees[Snap(b.path)] != Exec(start, before).taken[b.id]
  {
    hide Inv, Settled, Legal, DropsLast, Exec, Clearing;
    GoneBeforeCommit(start, before, after, ds, ids, b.path);
    var last := |after| - 1;
    var w, ls := Exec(start, before), after[|before|..last];
    CutRun(start, before, after, ds, ids, last);
    var m := TearIn(w, ls, b);
    n := |before| + m;
    assert ls[..m] == after[|before|..n];
    CutRun(start, before, after, ds, ids, n);
  }

  lemma GoneBeforeCommit(start: World, before: seq<Label>, after: seq<Label>, ds: set<string>, ids: set<nat>, d: string)
    requires Legal(start, after) && DropsLast(before, after, ds, ids) && Snap(d) !in Exec(start, after).trees
    ensures |before| < |after| && Snap(d) !in Exec(start, after[..|after| - 1]).trees
  {
    DropKeepsTrees(Exec(start, after[..|after| - 1]), ids);
    hide Apply;
  }

  /** Among removals that end with the directory of `b` gone, a first one that leaves it there. */
  lemma TearIn(w: World, ls: seq<Label>, b: Backup) returns (m: nat)
    requires Inv(w) && Settled(w, b) && Legal(w, ls) && Clearing(ls)
    requires b.id in w.taken && w.taken[b.id] != map[] && Snap(b.path) !in Exec(w, ls).trees
    ensures 0 < m <= |ls| && b in Exec(w, ls[..m]).rows && Snap(b.path) in Exec(w, ls[..m]).trees
    ensures Exec(w, ls[..m]).trees[Snap(b.path)] != w.taken[b.id]
  {
    SettledShown(w, b);
    hide Inv, Settled;
    ClearingShrinks(w, ls, b.path);
    m := FirstRemoval(w, ls, b.path);
    PrefixLegal(w, ls, m);
    ClearingShrinks(w, ls[..m], b.path);
  }

  lemma SettledShown(w: World, b: Backup)
    requires Inv(w) && Settled(w, b)
    ensures b in w.rows && Snap(b.path) in w.trees && b.id in w.taken && w.trees[Snap(b.path)] == w.taken[b.id]
  {
  }

  lemma DropKeepsTrees(w: World, ids: set<nat>)
    ensures Apply(w, Removal(Drop(ids))).trees == w.trees
  {
  }
}
