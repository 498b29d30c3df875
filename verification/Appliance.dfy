/** The appliance as it is stored: database tables, the process table and a filesystem
    whose snapshots share inodes.  Each method here is one persistent step; `log` records
    them, and `Valid` says the history is a legal run of the ideal `World`, in which every
    snapshot has a private copy of its files. */
module Appliances {
  import opened Options
  import opened Hardlinks
  import opened Worlds
  import opened Runs
  import opened Environments

  ghost predicate AllHonest(c: Contents, trees: map<Where, Files>) {
    forall x :: x in trees ==> Honest(c, x, trees[x])
  }

  lemma HonestWrite(c: Contents, trees: map<Where, Files>, x: Where, p: string, f: File)
    requires AllHonest(c, trees) && x in trees && f.data == c.truth(c.kin(x), p, f.meta)
    ensures AllHonest(c, trees[x := trees[x][p := f]])
  {
  }

  lemma HonestRemoval(c: Contents, trees: map<Where, Files>, x: Where, p: string)
    requires AllHonest(c, trees) && x in trees
    ensures AllHonest(c, trees[x := trees[x] - {p}])
  {
  }

  /** A file copied to the same path of a directory of the same kin stays honest. */
  lemma HonestPlace(c: Contents, trees: map<Where, Files>, x: Where, y: Where, p: string)
    requires AllHonest(c, trees) && x in trees && y in trees && p in trees[x] && c.kin(x) == c.kin(y)
    ensures AllHonest(c, trees[y := trees[y][p := trees[x][p]]])
  {
  }

  lemma HonestMatch(c: Contents, trees: map<Where, Files>, x: Where, y: Where, p: string)
    requires AllHonest(c, trees) && x in trees && y in trees && p in trees[x] && p in trees[y] && c.kin(x) == c.kin(y)
    requires trees[x][p].meta == trees[y][p].meta
    ensures trees[x][p] == trees[y][p]
  {
    HonestAgree(c, x, trees[x], y, trees[y], p);
  }

  // ----- Kinship -------------------------------------------------------------------------

  /** Every directory under `root` is of the kin of server `s`. */
  ghost predicate RootOf(c: Contents, root: string, s: nat) {
    forall name: string :: c.kin(Snap(root + "/" + name)) == c.kin(Live(s))
  }

  /** A snapshot row names a directory of its server's kin, and so does a new one. */
  ghost predicate Kindred(c: Contents, w: World) {
    && (forall b :: b in w.rows && b.means.Rsync? ==> c.kin(Snap(b.path)) == c.kin(Live(b.server)))
    && (forall s :: s in w.servers ==> RootOf(c, w.servers[s].settings.backupRoot, s))
  }

  /** New rows are of their server's kin, and no one moves a server's backup directory. */
  ghost predicate Seemly(c: Contents, w: World, l: Label) {
    match l
    case OnSnapshot(Insert(b)) => c.kin(Snap(b.path)) == c.kin(Live(b.server))
    case OnServer(s, Configure(settings)) => s in w.servers && settings.backupRoot == w.servers[s].settings.backupRoot
    case _ => true
  }

  lemma ServerKeepsKindred(c: Contents, w: World, s: nat, e: ServerStep)
    requires Kindred(c, w) && ServerEnabled(w, s, e) && Seemly(c, w, OnServer(s, e))
    ensures Kindred(c, ApplyServer(w, s, e))
  {
    hide RootOf;
  }

  lemma SnapKeepsKindred(c: Contents, w: World, e: SnapStep)
    requires Kindred(c, w) && SnapEnabled(w, e) && Seemly(c, w, OnSnapshot(e))
    ensures Kindred(c, ApplySnap(w, e))
  {
    hide RootOf;
  }

  lemma RemovalKeepsKindred(c: Contents, w: World, e: RemovalStep)
    requires Kindred(c, w) && RemovalEnabled(w, e)
    ensures Kindred(c, ApplyRemoval(w, e))
  {
    hide RootOf;
  }

  lemma StepKeepsKindred(c: Contents, w: World, l: Label)
    requires Kindred(c, w) && Enabled(w, l) && Seemly(c, w, l)
    ensures Kindred(c, Apply(w, l))
  {
    match l
    case Env(e) => hide Seemly, RootOf;
    case OnServer(s, e) => ServerKeepsKindred(c, w, s, e);
    case OnSnapshot(e) => SnapKeepsKindred(c, w, e);
    case Removal(e) => RemovalKeepsKindred(c, w, e);
    case Reverting(k, e) => hide Seemly, RootOf;
  }

  /** Every launch in the history has been committed. */
  predicate Whole(ls: seq<Label>) {
    forall i :: 0 <= i < |ls| && IsSpawn(ls[i]) ==> i + 1 < |ls| && ls[i + 1] == CommitOf(ls[i])
  }

  lemma WholeSnoc(ls: seq<Label>, l: Label)
    requires Whole(ls) && !IsSpawn(l)
    ensures Whole(ls + [l])
  {
    assert forall i :: 0 <= i < |ls| ==> (ls + [l])[i] == ls[i];
  }

  lemma WholeLaunch(ls: seq<Label>, l: Label)
    requires Whole(ls) && IsSpawn(l)
    ensures Whole(ls + [l, CommitOf(l)])
  {
    var after := ls + [l, CommitOf(l)];
    assert forall i :: 0 <= i < |ls| ==> after[i] == ls[i];
  }

  /** No snapshot directory has an entry added, dropped or pointed elsewhere. */
  predicate SameSnaps(fs: Fs, fs': Fs) {
    forall x :: x in fs.dirs && x.Snap? ==> x in fs'.dirs && fs'.dirs[x] == fs.dirs[x]
  }

  predicate SameElsewhere(fs: Fs, fs': Fs, w: Where) {
    forall x :: x in fs.dirs && x != w ==> x in fs'.dirs && fs'.dirs[x] == fs.dirs[x]
  }

  function Target(e: FsStep): Where {
    match e
    case MkDir(w) => w
    case Create(w, _, _, _) => w
    case Link(d, _, _) => Snap(d)
    case Unlink(w, _) => w
    case RmDir(w) => w
    case Overwrite(s, _, _) => Live(s)
  }

  /** What a step does to directory entries. */
  predicate Moved(fs: Fs, fs': Fs, e: FsStep) {
    && SameElsewhere(fs, fs', Target(e))
    && (e.Create? || e.Unlink? || e.Link? ==> Target(e) in fs.dirs && Target(e) in fs'.dirs)
    && match e
       case Create(w, p, i, _) => fs'.dirs[w] == fs.dirs[w][p := i]
       case Unlink(w, p) => fs'.dirs[w] == fs.dirs[w] - {p}
       case Link(d, p, from) =>
         && Snap(from) in fs.dirs && p in fs.dirs[Snap(from)]
         && fs'.dirs[Snap(d)] == fs.dirs[Snap(d)][p := fs.dirs[Snap(from)][p]]
       case _ => true
  }

  lemma DoMoves(fs: Fs, e: FsStep)
    requires CanDo(fs, e)
    ensures Moved(fs, Do(fs, e), e)
  {
  }

  /** Directory `w` has a new entry `p`, and no entry is different otherwise. */
  predicate Placed(fs: Fs, fs': Fs, w: Where, p: string) {
    && SameElsewhere(fs, fs', w) && w in fs.dirs && w in fs'.dirs
    && p in fs'.dirs[w] && fs'.dirs[w] == fs.dirs[w][p := fs'.dirs[w][p]]
  }

  lemma PlacedByReplace(a: Fs, b: Fs, c: Fs, w: Where, p: string, i: Ino, f: File)
    requires w in a.dirs && (a == b || Moved(a, b, Unlink(w, p))) && Moved(b, c, Create(w, p, i, f))
    ensures Placed(a, c, w, p)
  {
    assert a != b ==> (a.dirs[w] - {p})[p := i] == a.dirs[w][p := i];
  }

  lemma PlacedByLink(a: Fs, b: Fs, d: string, p: string, from: string)
    requires Moved(a, b, Link(d, p, from))
    ensures Placed(a, b, Snap(d), p)
    ensures Snap(from) in a.dirs && p in a.dirs[Snap(from)] && b.dirs[Snap(d)][p] == a.dirs[Snap(from)][p]
  {
  }

  /** Steps in a server's directory move no snapshot entry. */
  lemma LiveKeepsSnaps(fs: Fs, fs': Fs, e: FsStep)
    requires Moved(fs, fs', e) && Target(e).Live?
    ensures SameSnaps(fs, fs')
  {
  }

  lemma LivePlaceKeepsSnaps(fs: Fs, fs': Fs, w: Where, p: string)
    requires Placed(fs, fs', w, p) && w.Live?
    ensures SameSnaps(fs, fs')
  {
  }

  lemma SameSnapsReflexive(fs: Fs)
    ensures SameSnaps(fs, fs)
  {
  }

  lemma SameSnapsTransitive(a: Fs, b: Fs, c: Fs)
    requires SameSnaps(a, b) && SameSnaps(b, c)
    ensures SameSnaps(a, c)
  {
  }

  lemma NothingToRemove(trees: map<Where, Files>, x: Where, p: string)
    requires x in trees && p !in trees[x]
    ensures trees[x := trees[x] - {p}] == trees
  {
    assert trees[x] - {p} == trees[x];
  }

  /** A launch and the commit of its pid. */
  function ApplyLaunch(w: World, s: nat, q: nat): World
    requires ServerEnabled(w, s, Spawn(q))
  {
    w.(procs := w.procs[q := s],
       servers := w.servers[s := w.servers[s].(pid := Some(q), status := Running, lastStop := None)])
  }

  lemma LaunchEffect(w: World, s: nat, q: nat)
    requires ServerEnabled(w, s, Spawn(q))
    ensures s in w.servers
  {
  }

  lemma LaunchIsTwoSteps(w: World, s: nat, q: nat)
    requires ServerEnabled(w, s, Spawn(q))
    ensures ServerEnabled(ApplyServer(w, s, Spawn(q)), s, NoteLaunched(q))
    ensures ApplyServer(ApplyServer(w, s, Spawn(q)), s, NoteLaunched(q)) == ApplyLaunch(w, s, q)
    ensures Owned(w) ==> Owned(ApplyLaunch(w, s, q))
  {
  }

  /** What a step does, as the contracts of the operations speak of it. */
  datatype Sort = Outside | RowKeeping | Configuring | Terming | Killing | Launching | Snapshotting | Removing | Restoring

  function SortOf(l: Label): Sort {
    match l
    case Env(_) => Outside
    case OnServer(_, e) =>
      if e.Spawn? || e.NoteLaunched? then Launching
      else if e.Signalled? then (if e.signal.Kill? then Killing else Terming)
      else if e.Configure? then Configuring
      else RowKeeping
    case OnSnapshot(_) => Snapshotting
    case Removal(_) => Removing
    case Reverting(_, _) => Restoring
  }

  /** How often the appliance waited or looked: each time is one passing of the clock. */
  ghost function Passes(ls: seq<Label>): nat {
    if ls == [] then 0
    else Passes(ls[..|ls| - 1]) + (if ls[|ls| - 1].Env? && ls[|ls| - 1].env.Pass? then 1 else 0)
  }

  lemma PassesSnoc(ls: seq<Label>, l: Label)
    ensures Passes(ls + [l]) == Passes(ls) + (if l.Env? && l.env.Pass? then 1 else 0)
  {
    assert (ls + [l])[..|ls|] == ls;
  }

  /** `after` extends `before` by steps of the sorts in `sorts` only. */
  ghost predicate Only(before: seq<Label>, after: seq<Label>, sorts: set<Sort>) {
    before <= after && forall i :: |before| <= i < |after| ==> SortOf(after[i]) in sorts
  }

  lemma OnlyTransitive(a: seq<Label>, b: seq<Label>, c: seq<Label>, ab: set<Sort>, bc: set<Sort>, ac: set<Sort>)
    requires Only(a, b, ab) && Only(b, c, bc) && ab <= ac && bc <= ac
    ensures Only(a, c, ac)
  {
  }

  lemma OnlyMore(a: seq<Label>, b: seq<Label>, ab: set<Sort>, more: set<Sort>)
    requires Only(a, b, ab) && ab <= more
    ensures Only(a, b, more)
  {
  }

  lemma OneMore(before: seq<Label>, after: seq<Label>, l: Label, sorts: set<Sort>)
    requires Only(before, after, sorts) && SortOf(l) in sorts
    ensures Only(before, after + [l], sorts)
  {
  }

  lemma NoneYet(log: seq<Label>, sorts: set<Sort>)
    ensures Only(log, log, sorts)
  {
  }

  class Appliance {
    var servers: map<nat, Server>
    var procs: map<nat, nat>
    var fs: Fs
    var rows: seq<Backup>
    var now: real
    var signals: seq<Sent>
    ghost var taken: map<nat, Files>
    ghost var torn: set<nat>

    /** What is still to happen without the appliance. */
    var future: seq<Burst>

    /** What servers write: none keeps a file's size and modification time and changes what it
        holds. */
    const contents: Contents

    ghost const start: World
    ghost var log: seq<Label>

    /** The ideal world this state stands for. */
    ghost function W(): World
      reads this
    {
      World(servers, procs, Views(fs), rows, now, signals, taken, torn)
    }

    /** The history is a legal run of the ideal world, with every launch committed. */
    ghost predicate Stored()
      reads this
    {
      && Ok(fs) && AllHonest(contents, Views(fs)) && Inv(start)
      && Legal(start, log) && Exec(start, log) == W() && Inv(W()) && Kindred(contents, W()) && Whole(log)
    }

    /** And every process is on its server's row.  Only a crash between a launch and the commit
        of its pid leaves a state that is `Stored` and not this. */
    ghost predicate Valid()
      reads this
    {
      Stored() && Owned(W())
    }

    /** Taking over whatever an earlier run, perhaps cut short, left behind. */
    constructor (servers: map<nat, Server>, procs: map<nat, nat>, fs: Fs, rows: seq<Backup>, now: real,
                 contents: Contents, future: seq<Burst>, ghost taken: map<nat, Files>, ghost torn: set<nat>)
      requires Ok(fs) && AllHonest(contents, Views(fs))
      requires var w := World(servers, procs, Views(fs), rows, now, [], taken, torn); Inv(w) && Kindred(contents, w)
      ensures Stored() && log == [] && this.future == future && this.contents == contents
      ensures W() == World(servers, procs, Views(fs), rows, now, [], taken, torn)
      ensures Valid() <==> Owned(World(servers, procs, Views(fs), rows, now, [], taken, torn))
    {
      this.servers, this.procs, this.fs, this.rows, this.now := servers, procs, fs, rows, now;
      this.signals, this.contents, this.future, this.taken, this.torn := [], contents, future, taken, torn;
      this.start, this.log := World(servers, procs, Views(fs), rows, now, [], taken, torn), [];
    }

    /** A server's live process, if it has one, is the one its row records. */
    lemma Recorded(s: nat)
      requires Valid()
      ensures HasProcess(W(), s) <==>
              && s in servers && servers[s].pid.Some?
              && servers[s].pid.value in procs && procs[servers[s].pid.value] == s
    {
      if HasProcess(W(), s) {
        var q :| q in procs && procs[q] == s;
      } else if s in servers && servers[s].pid.Some? {
        assert servers[s].pid.value in W().procs ==> W().procs[servers[s].pid.value] != s;
      }
    }

    lemma Tables()
      requires Valid()
      ensures Ledger(W()) && Intact(W()) && Kindred(contents, W())
    {
    }

    /** Equal metadata at one path of two directories of one kin means equal files. */
    lemma SameMeta(x: Where, y: Where, p: string)
      requires Valid() && x in fs.dirs && y in fs.dirs && p in Views(fs)[x] && p in Views(fs)[y]
      requires contents.kin(x) == contents.kin(y)
      ensures Views(fs)[x] == View(fs, x) && Views(fs)[y] == View(fs, y)
      ensures View(fs, x)[p].meta == View(fs, y)[p].meta ==> View(fs, x)[p] == View(fs, y)[p]
    {
      hide Ok, Inv, Legal, Exec, Kindred, Whole, Owned;
      assert Honest(contents, x, Views(fs)[x]) && Honest(contents, y, Views(fs)[y]);
    }

    /** rsync's tree is the source tree. */
    lemma QuickCopies(x: Where, y: Where)
      requires Valid() && x in fs.dirs && y in fs.dirs && contents.kin(x) == contents.kin(y)
      ensures QuickCopy(W().trees[x], W().trees[y]) == W().trees[x]
    {
      hide Ok, Inv, Legal, Exec, Kindred, Whole, Owned, Views, QuickCopy;
      HonestQuickCopy(contents, x, Views(fs)[x], y, Views(fs)[y]);
    }

    lemma Shown()
      ensures W().servers == servers && W().procs == procs && W().rows == rows && W().now == now && W().signals == signals
    {
    }

    lemma HistorySoFar()
      requires Valid()
      ensures Exec(start, log) == W()
    {
    }

    lemma ValidIsStored()
      ensures Valid() ==> Stored()
    {
    }

    lemma KeysAnyhow(x: Where)
      requires (Valid() || Stored()) && x in fs.dirs
      ensures Views(fs)[x].Keys == fs.dirs[x].Keys
    {
      ViewKeys(fs, x);
    }

    lemma KeysShown(x: Where)
      requires Valid() && x in fs.dirs
      ensures Views(fs)[x] == View(fs, x) && Views(fs)[x].Keys == fs.dirs[x].Keys
    {
      ViewKeys(fs, x);
    }

    ghost method Record(l: Label)
      requires Legal(start, log) && Inv(Exec(start, log)) && Kindred(contents, Exec(start, log)) && Whole(log)
      requires Enabled(Exec(start, log), l) && Seemly(contents, Exec(start, log), l) && !IsSpawn(l)
      modifies this`log
      ensures log == old(log) + [l] && Legal(start, log) && Exec(start, log) == Apply(old(Exec(start, log)), l)
      ensures Inv(Exec(start, log)) && Kindred(contents, Exec(start, log)) && Whole(log)
      ensures old(Owned(Exec(start, log))) ==> Owned(Exec(start, log))
    {
      hide Inv, Kindred, Enabled, Apply, Owned, Seemly;
      RunSnoc(start, log, l);
      StepKeepsInv(Exec(start, log), l);
      StepKeepsKindred(contents, Exec(start, log), l);
      WholeSnoc(log, l);
      if Owned(Exec(start, log)) {
        StepKeepsOwned(Exec(start, log), l);
      }
      log := log + [l];
    }

    // ----- The environment -----------------------------------------------------------

    /** Time passes, at least `least` seconds of it, and meanwhile any process may end and
        any server that has one may write and remove its own files, as the schedule has it. */
    method Elapse(least: real)
      requires (Valid() || Stored()) && least >= 0.0
      modifies this
      ensures Stored() && (old(Valid()) ==> Valid())
      ensures W() == Advance(contents, old(W()), least, old(future)) && future == Later(old(future))
      ensures EnvFrame(old(W()), W()) && now >= old(now) + least
      ensures Only(old(log), log, {Outside}) && Passes(log) == Passes(old(log)) + 1 && SameSnaps(old(fs), fs)
    {
      hide AllHonest, Ok, Inv, Legal, Exec, Kindred, Whole, Owned, Views, SameSnaps, Only, EnvFrame, Passes;
      ghost var w0, l0 := W(), log;
      PassesSnoc(l0, Env(Pass(Span(least, Next(future)))));
      var burst := Next(future);
      var dt := Span(least, burst);
      SameSnapsReflexive(fs);
      NoneYet(l0, {Outside});
      OneMore(l0, l0, Env(Pass(dt)), {Outside});
      StepIsFramed(W(), Pass(dt));
      Record(Env(Pass(dt)));
      now := now + dt;
      future := Later(future);
      ghost var w1, begun := W(), now;
      var rest := burst.moves;
      while rest != []
        invariant Stored() && (old(Valid()) ==> Valid()) && now == begun && future == Later(old(future))
        invariant HappenAll(contents, W(), rest) == HappenAll(contents, w1, burst.moves)
        invariant EnvFrame(w0, W()) && Only(l0, log, {Outside}) && SameSnaps(old(fs), fs)
        invariant Passes(log) == Passes(l0) + 1
        decreases |rest|
      {
        ghost var w, fs1, l1 := W(), fs, log;
        Make(rest[0]);
        EnvFrameTransitive(w0, w, W());
        SameSnapsTransitive(old(fs), fs1, fs);
        OnlyTransitive(l0, l1, log, {Outside}, {Outside}, {Outside});
        rest := rest[1..];
      }
    }

    /** One move of the schedule. */
    method Make(m: Move)
      requires Stored()
      modifies this
      ensures Stored() && (old(Valid()) ==> Valid())
      ensures W() == Happen(contents, old(W()), m) && future == old(future)
      ensures EnvFrame(old(W()), W()) && now == old(now)
      ensures Only(old(log), log, {Outside}) && Passes(log) == Passes(old(log)) && SameSnaps(old(fs), fs)
    {
      hide AllHonest, Ok, Inv, Legal, Exec, Kindred, Whole, Owned, Views, SameSnaps, Only, EnvFrame, Passes;
      PassesSnoc(log, Env(StepOf(contents, m)));
      SameSnapsReflexive(fs);
      EnvFrameReflexive(W());
      NoneYet(log, {Outside});
      OneMore(log, log, Env(StepOf(contents, m)), {Outside});
      match m {
        case Ends(pid) =>
          if pid in procs {
            StepIsFramed(W(), Exit(pid));
            EndProcess(pid);
          }
        case Writes(s, p, meta, inPlace) =>
          if (exists q :: q in procs && procs[q] == s) && Live(s) in fs.dirs {
            StepIsFramed(W(), StepOf(contents, m));
            ServerWrites(s, p, File(meta, contents.truth(contents.kin(Live(s)), p, meta)), inPlace);
          }
        case Erases(s, p) =>
          if (exists q :: q in procs && procs[q] == s) && Live(s) in fs.dirs {
            StepIsFramed(W(), StepOf(contents, m));
            ServerRemoves(s, p);
          }
      }
    }

    method EndProcess(pid: nat)
      requires Stored() && pid in procs
      modifies this
      ensures Stored() && (old(Valid()) ==> Valid())
      ensures W() == ApplyEnv(old(W()), Exit(pid)) && log == old(log) + [Env(Exit(pid))]
      ensures fs == old(fs) && future == old(future)
    {
      hide AllHonest, Ok, Inv, Legal, Exec, Kindred, Whole, Owned, Views;
      Record(Env(Exit(pid)));
      procs := procs - {pid};
    }

    /** A server that has a process writes one of its files, in place or by renaming a new
        one over it. */
    method ServerWrites(s: nat, p: string, f: File, inPlace: bool)
      requires Stored() && EnvEnabled(W(), Serve(s, p, f)) && f.data == contents.truth(contents.kin(Live(s)), p, f.meta)
      modifies this
      ensures Stored() && (old(Valid()) ==> Valid())
      ensures W() == ApplyEnv(old(W()), Serve(s, p, f)) && log == old(log) + [Env(Serve(s, p, f))]
      ensures SameSnaps(old(fs), fs) && future == old(future)
    {
      hide AllHonest, Ok, Inv, Legal, Exec, Kindred, Whole, Owned, Views, Moved, Placed, SameSnaps;
      ghost var before := fs;
      Record(Env(Serve(s, p, f)));
      HonestWrite(contents, Views(fs), Live(s), p, f);
      if inPlace && p in fs.dirs[Live(s)] {
        DoStep(Overwrite(s, p, f));
        LiveKeepsSnaps(before, fs, Overwrite(s, p, f));
      } else {
        Replace(Live(s), p, f);
        LivePlaceKeepsSnaps(before, fs, Live(s), p);
      }
    }

    method ServerRemoves(s: nat, p: string)
      requires Stored() && EnvEnabled(W(), Unserve(s, p))
      modifies this
      ensures Stored() && (old(Valid()) ==> Valid())
      ensures W() == ApplyEnv(old(W()), Unserve(s, p)) && log == old(log) + [Env(Unserve(s, p))]
      ensures SameSnaps(old(fs), fs) && future == old(future)
    {
      hide AllHonest, Ok, Inv, Legal, Exec, Kindred, Whole, Owned, Views, Moved, SameSnaps;
      ghost var before := fs;
      SameSnapsReflexive(fs);
      ViewKeys(fs, Live(s));
      Record(Env(Unserve(s, p)));
      HonestRemoval(contents, Views(fs), Live(s), p);
      if p !in fs.dirs[Live(s)] {
        NothingToRemove(Views(fs), Live(s), p);
      } else {
        Unname(Live(s), p);
        LiveKeepsSnaps(before, fs, Unlink(Live(s), p));
      }
    }

    // ----- Server rows and processes -----------------------------------------------

    method MarkRunning(s: nat)
      requires Valid() && ServerEnabled(W(), s, NoteRunning)
      modifies this
      ensures Valid() && W() == ApplyServer(old(W()), s, NoteRunning) && log == old(log) + [OnServer(s, NoteRunning)]
      ensures future == old(future)
    {
      hide AllHonest, Ok, Inv, Legal, Exec, Kindred, Whole, Owned, Views;
      Record(OnServer(s, NoteRunning));
      servers := servers[s := servers[s].(status := Running)];
    }

    /** Clear the pid; `how` is recorded when a stop was carried out. */
    method MarkStopped(s: nat, how: Option<StopMethod>)
      requires Valid() && ServerEnabled(W(), s, NoteStopped(how))
      modifies this
      ensures Valid() && W() == ApplyServer(old(W()), s, NoteStopped(how)) && log == old(log) + [OnServer(s, NoteStopped(how))]
      ensures future == old(future)
    {
      hide AllHonest, Ok, Inv, Legal, Exec, Kindred, Whole, Owned, Views;
      Record(OnServer(s, NoteStopped(how)));
      var lastStop := if how.Some? then how else servers[s].lastStop;
      servers := servers[s := servers[s].(pid := None, status := Stopped, lastStop := lastStop)];
    }

    method MarkStopFailed(s: nat)
      requires Valid() && ServerEnabled(W(), s, NoteStopFailed)
      modifies this
      ensures Valid() && W() == ApplyServer(old(W()), s, NoteStopFailed) && log == old(log) + [OnServer(s, NoteStopFailed)]
      ensures future == old(future)
    {
      hide AllHonest, Ok, Inv, Legal, Exec, Kindred, Whole, Owned, Views;
      Record(OnServer(s, NoteStopFailed));
      servers := servers[s := servers[s].(lastStop := Some(StopFailed))];
    }

    method SaveSettings(s: nat, settings: Settings)
      requires Valid() && ServerEnabled(W(), s, Configure(settings))
      requires settings.backupRoot == servers[s].settings.backupRoot
      modifies this
      ensures Valid() && W() == ApplyServer(old(W()), s, Configure(settings)) && log == old(log) + [OnServer(s, Configure(settings))]
    {
      hide AllHonest, Ok, Inv, Legal, Exec, Kindred, Whole, Owned, Views;
      Record(OnServer(s, Configure(settings)));
      servers := servers[s := servers[s].(settings := settings)];
    }

    method SendSignal(s: nat, pid: nat, signal: Signal)
      requires Valid() && ServerEnabled(W(), s, Signalled(pid, signal))
      modifies this
      ensures Valid() && W() == ApplyServer(old(W()), s, Signalled(pid, signal)) && log == old(log) + [OnServer(s, Signalled(pid, signal))]
      ensures future == old(future)
    {
      hide AllHonest, Ok, Inv, Legal, Exec, Kindred, Whole, Owned, Views;
      Record(OnServer(s, Signalled(pid, signal)));
      signals := signals + [Sent(pid, signal)];
    }

    /** Popen, and the commit of the new pid: two steps, with a crash possible in between. */
    method Launch(s: nat, pid: nat)
      requires (Valid() || Stored()) && ServerEnabled(W(), s, Spawn(pid))
      modifies this
      ensures Stored() && (old(Valid()) ==> Valid())
      ensures W() == ApplyLaunch(old(W()), s, pid) && future == old(future)
      ensures log == old(log) + [OnServer(s, Spawn(pid)), OnServer(s, NoteLaunched(pid))]
    {
      hide AllHonest, Ok, Inv, Legal, Exec, Kindred, Whole, Owned, Views, ServerEnabled, ApplyServer;
      ghost var w, l0 := W(), log;
      LaunchIsTwoSteps(w, s, pid);
      LaunchEffect(w, s, pid);
      RecordLaunch(s, pid);
      procs := procs[pid := s];
      servers := servers[s := servers[s].(pid := Some(pid), status := Running, lastStop := None)];
    }

    ghost method RecordLaunch(s: nat, pid: nat)
      requires Legal(start, log) && Inv(Exec(start, log)) && Kindred(contents, Exec(start, log)) && Whole(log)
      requires ServerEnabled(Exec(start, log), s, Spawn(pid))
      modifies this`log
      ensures log == old(log) + [OnServer(s, Spawn(pid)), OnServer(s, NoteLaunched(pid))]
      ensures Legal(start, log) && Exec(start, log) == ApplyLaunch(old(Exec(start, log)), s, pid)
      ensures Inv(Exec(start, log)) && Kindred(contents, Exec(start, log)) && Whole(log)
    {
      hide Inv, Kindred, ServerEnabled, ApplyServer, Whole, Legal, Exec;
      var spawn, commit := OnServer(s, Spawn(pid)), OnServer(s, NoteLaunched(pid));
      ghost var w := Exec(start, log);
      LaunchIsTwoSteps(w, s, pid);
      RunSnoc(start, log, spawn);
      StepKeepsInv(w, spawn);
      StepKeepsKindred(contents, w, spawn);
      RunSnoc(start, log + [spawn], commit);
      StepKeepsInv(Apply(w, spawn), commit);
      StepKeepsKindred(contents, Apply(w, spawn), commit);
      WholeLaunch(log, spawn);
      assert log + [spawn] + [commit] == log + [spawn, commit];
      log := log + [spawn, commit];
    }

    // ----- Files ---------------------------------------------------------------------

    /** The kernel's choice of an inode number not in use. */
    method FreshInode() returns (i: Ino)
      ensures i !in fs.inodes
    {
      i := 0;
      ghost var seen: set<Ino> := {};
      while i in fs.inodes
        invariant forall j :: j in seen ==> j < i
        invariant seen <= fs.inodes.Keys
        decreases |fs.inodes.Keys| - |seen|
      {
        seen := seen + {i};
        SubsetSize(seen, fs.inodes.Keys);
        i := i + 1;
      }
    }

    method DoStep(e: FsStep)
      requires Ok(fs) && CanDo(fs, e)
      modifies this`fs
      ensures Ok(fs) && Views(fs) == DoPrivate(old(Views(fs)), e) && Moved(old(fs), fs, e)
    {
      StepRefines(fs, e);
      DoMoves(fs, e);
      fs := Do(fs, e);
    }

    method Unname(w: Where, p: string)
      requires Ok(fs) && w in fs.dirs && p in fs.dirs[w]
      modifies this`fs
      ensures Ok(fs) && Moved(old(fs), fs, Unlink(w, p))
      ensures Views(fs) == old(Views(fs))[w := old(Views(fs))[w] - {p}]
    {
      hide Ok, Moved;
      DoStep(Unlink(w, p));
    }

    /** A temporary file renamed onto `p`: any old file there loses this name. */
    method Replace(w: Where, p: string, f: File)
      requires Ok(fs) && w in fs.dirs
      modifies this`fs
      ensures Ok(fs) && Views(fs) == old(Views(fs))[w := old(Views(fs))[w][p := f]]
      ensures Placed(old(fs), fs, w, p)
    {
      hide Ok, Moved, Placed;
      ghost var v, before := Views(fs), fs;
      ViewKeys(fs, w);
      if p in fs.dirs[w] {
        DoStep(Unlink(w, p));
        ViewKeys(fs, w);
      }
      var i := FreshInode();
      ghost var between := fs;
      DoStep(Create(w, p, i, f));
      ReplacedView(v, w, p, i, f);
      PlacedByReplace(before, between, fs, w, p, i, f);
    }

    // ----- Snapshots -----------------------------------------------------------------

    method InsertRow(b: Backup)
      requires Valid() && SnapEnabled(W(), Insert(b)) && contents.kin(Snap(b.path)) == contents.kin(Live(b.server))
      modifies this
      ensures Valid() && W() == ApplySnap(old(W()), Insert(b)) && log == old(log) + [OnSnapshot(Insert(b))]
    {
      hide AllHonest, Ok, Inv, Legal, Exec, Kindred, Whole, Owned, Views;
      Record(OnSnapshot(Insert(b)));
      rows := rows + [b];
    }

    method MakeDirectory(k: nat)
      requires Valid() && SnapEnabled(W(), MakeDir(k))
      modifies this
      ensures Valid() && W() == ApplySnap(old(W()), MakeDir(k)) && log == old(log) + [OnSnapshot(MakeDir(k))]
    {
      hide Ok, Inv, Legal, Exec, Kindred, Whole, Owned, Views, Moved, Placed;
      Record(OnSnapshot(MakeDir(k)));
      DoStep(MkDir(Snap(rows[k].path)));
    }

    /** rsync's treatment of one file: a hard link into `link` when that snapshot has the
        path with the same metadata, a copy otherwise.  Either way the entry placed shows
        the live file, because a matching file in `link` has the same contents. */
    method PlaceFile(k: nat, p: string, link: Option<string>)
      requires Valid() && OpenRow(W(), k)
      requires Live(rows[k].server) in Views(fs) && p in Views(fs)[Live(rows[k].server)]
      requires SnapEnabled(W(), Place(k, p, Views(fs)[Live(rows[k].server)][p]))
      requires p !in Views(fs)[Snap(rows[k].path)] && contents.kin(Snap(rows[k].path)) == contents.kin(Live(rows[k].server))
      requires link.Some? ==>
                 Snap(link.value) in fs.dirs && contents.kin(Snap(link.value)) == contents.kin(Live(rows[k].server))
      modifies this
      ensures Valid()
      ensures var e := Place(k, p, old(Views(fs)[Live(rows[k].server)][p]));
              W() == ApplySnap(old(W()), e) && log == old(log) + [OnSnapshot(e)]
      ensures Placed(old(fs), fs, Snap(rows[k].path), p)
      ensures link.Some? && p in old(Views(fs)[Snap(link.value)]) &&
              old(Views(fs)[Snap(link.value)][p]).meta == old(Views(fs)[Live(rows[k].server)][p]).meta ==>
                && p in old(fs.dirs)[Snap(link.value)] && p in fs.dirs[Snap(rows[k].path)]
                && fs.dirs[Snap(rows[k].path)][p] == old(fs.dirs)[Snap(link.value)][p]
    {
      hide AllHonest, Ok, Inv, Legal, Exec, Kindred, Whole, Owned, Views, Moved, Placed;
      ghost var before := fs;
      var live, dest := Live(rows[k].server), Snap(rows[k].path);
      ViewKeys(fs, live);
      ViewKeys(fs, dest);
      ghost var f := Views(fs)[live][p];
      Record(OnSnapshot(Place(k, p, f)));
      HonestPlace(contents, Views(fs), live, dest, p);
      var file := View(fs, live)[p];
      if link.Some? {
        ViewKeys(fs, Snap(link.value));
      }
      if link.Some? && p in View(fs, Snap(link.value)) && View(fs, Snap(link.value))[p].meta == file.meta {
        HonestMatch(contents, Views(fs), live, Snap(link.value), p);
        DoStep(Link(rows[k].path, p, link.value));
        PlacedByLink(before, fs, rows[k].path, p, link.value);
      } else {
        Replace(dest, p, file);
      }
    }

    method FinishRow(k: nat)
      requires Valid() && SnapEnabled(W(), Finish(k))
      modifies this
      ensures Valid() && W() == ApplySnap(old(W()), Finish(k)) && log == old(log) + [OnSnapshot(Finish(k))]
      ensures fs == old(fs)
    {
      hide AllHonest, Ok, Inv, Legal, Exec, Kindred, Whole, Owned, Views;
      Record(OnSnapshot(Finish(k)));
      taken, torn := taken[rows[k].id := Views(fs)[Snap(rows[k].path)]], torn - {rows[k].id};
      rows := rows[k := rows[k].(status := Done)];
    }

    method FailRow(k: nat)
      requires Valid() && SnapEnabled(W(), Fail(k))
      modifies this
      ensures Valid() && W() == ApplySnap(old(W()), Fail(k)) && log == old(log) + [OnSnapshot(Fail(k))]
    {
      hide AllHonest, Ok, Inv, Legal, Exec, Kindred, Whole, Owned, Views;
      Record(OnSnapshot(Fail(k)));
      rows := rows[k := rows[k].(status := Failed)];
    }

    // ----- Removing ------------------------------------------------------------------

    method RemoveFile(d: string, p: string)
      requires Valid() && RemovalEnabled(W(), Remove(d, p)) && p in fs.dirs[Snap(d)]
      modifies this
      ensures Valid() && W() == ApplyRemoval(old(W()), Remove(d, p)) && log == old(log) + [Removal(Remove(d, p))]
    {
      hide AllHonest, Ok, Inv, Legal, Exec, Kindred, Whole, Owned, Views, Moved, Placed;
      Record(Removal(Remove(d, p)));
      HonestRemoval(contents, Views(fs), Snap(d), p);
      Unname(Snap(d), p);
      torn := torn + IdsAt(rows, d);
    }

    method RemoveDirectory(d: string)
      requires Valid() && RemovalEnabled(W(), RemoveDir(d)) && fs.dirs[Snap(d)] == map[]
      modifies this
      ensures Valid() && W() == ApplyRemoval(old(W()), RemoveDir(d)) && log == old(log) + [Removal(RemoveDir(d))]
    {
      hide Ok, Inv, Legal, Exec, Kindred, Whole, Owned, Views, Moved, Placed;
      Record(Removal(RemoveDir(d)));
      DoStep(RmDir(Snap(d)));
      torn := torn + IdsAt(rows, d);
    }

    method DropRows(ids: set<nat>)
      requires Valid()
      modifies this
      ensures Valid() && W() == ApplyRemoval(old(W()), Drop(ids)) && log == old(log) + [Removal(Drop(ids))]
    {
      hide AllHonest, Ok, Inv, Legal, Exec, Kindred, Whole, Owned, Views;
      Record(Removal(Drop(ids)));
      rows, taken, torn := Without(rows, ids), taken - ids, torn - ids;
    }

    // ----- Restoring -----------------------------------------------------------------

    /** rsync's treatment of one file on the way back: copied, and renamed over the old one. */
    method PutBack(k: nat, p: string, from: string)
      requires Valid() && RevertEnabled(W(), k)
      requires Snap(from) in fs.dirs && p in Views(fs)[Snap(from)]
      requires contents.kin(Snap(from)) == contents.kin(Live(rows[k].server))
      modifies this
      ensures Valid()
      ensures var e := Put(p, old(Views(fs)[Snap(from)][p]));
              W() == ApplyRevert(old(W()), k, e) && log == old(log) + [Reverting(k, e)]
    {
      hide AllHonest, Ok, Inv, Legal, Exec, Kindred, Whole, Owned, Views, Moved, Placed;
      ViewKeys(fs, Snap(from));
      ViewKeys(fs, Live(rows[k].server));
      var file := View(fs, Snap(from))[p];
      Record(Reverting(k, Put(p, file)));
      HonestPlace(contents, Views(fs), Snap(from), Live(rows[k].server), p);
      Replace(Live(rows[k].server), p, file);
    }

    method CutBack(k: nat, p: string)
      requires Valid() && RevertEnabled(W(), k) && p in fs.dirs[Live(rows[k].server)]
      modifies this
      ensures Valid() && W() == ApplyRevert(old(W()), k, Cut(p)) && log == old(log) + [Reverting(k, Cut(p))]
    {
      hide AllHonest, Ok, Inv, Legal, Exec, Kindred, Whole, Owned, Views, Moved, Placed;
      Record(Reverting(k, Cut(p)));
      HonestRemoval(contents, Views(fs), Live(rows[k].server), p);
      Unname(Live(rows[k].server), p);
    }
  }

  lemma SubsetSize<T>(a: set<T>, b: set<T>)
    requires a <= b
    ensures |a| <= |b|
  {
    if a != {} {
      var x :| x in a;
      SubsetSize(a - {x}, b - {x});
    }
  }
}
