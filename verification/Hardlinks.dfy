/** The part of a POSIX filesystem that rsync snapshots rely on: inodes with link
    counts, and directories whose entries name inodes.  A live server directory and a
    snapshot directory are both flat maps from relative path to inode.

    `Ok` is the sharing discipline.  `StepRefines` shows that under it a filesystem whose
    snapshots share inodes cannot be told apart from one in which every directory owns a
    private copy of each file; `RunRefines` lifts that to every run of steps. */
module Hardlinks {
  type Ino = int

  /** What rsync's quick check looks at. */
  datatype Meta = Meta(size: nat, mtime: int, mode: nat)
  datatype File = File(meta: Meta, data: string)

  datatype Where = Live(server: nat) | Snap(dir: string)

  type Entries = map<string, Ino>
  type Files = map<string, File>

  datatype Fs = Fs(inodes: map<Ino, File>, nlink: map<Ino, nat>, dirs: map<Where, Entries>)

  predicate Has(fs: Fs, w: Where, p: string) {
    w in fs.dirs && p in fs.dirs[w]
  }

  function At(fs: Fs, w: Where, p: string): Ino
    requires Has(fs, w, p)
  {
    fs.dirs[w][p]
  }

  /** The directory entries that name inode `i`. */
  ghost function Refs(fs: Fs, i: Ino): (refs: set<(Where, string)>)
    ensures forall w, p :: (w, p) in refs <==> Has(fs, w, p) && At(fs, w, p) == i
  {
    set w, p | w in fs.dirs && p in fs.dirs[w] && fs.dirs[w][p] == i :: (w, p)
  }

  ghost predicate NoDangling(fs: Fs) {
    forall w, p :: Has(fs, w, p) ==> At(fs, w, p) in fs.inodes
  }

  ghost predicate Counted(fs: Fs) {
    && fs.nlink.Keys == fs.inodes.Keys
    && forall i :: i in fs.nlink ==> fs.nlink[i] > 0 && fs.nlink[i] == |Refs(fs, i)|
  }

  /** A server's own files have exactly one name, so no snapshot shares them. */
  ghost predicate LivePrivate(fs: Fs) {
    forall s, p :: Has(fs, Live(s), p) ==>
      At(fs, Live(s), p) in fs.nlink && fs.nlink[At(fs, Live(s), p)] == 1
  }

  ghost predicate Ok(fs: Fs) {
    NoDangling(fs) && Counted(fs) && LivePrivate(fs)
  }

  /** What a reader of a directory sees. */
  function Show(inodes: map<Ino, File>, entries: Entries): Files {
    map p | p in entries && entries[p] in inodes :: inodes[entries[p]]
  }

  function View(fs: Fs, w: Where): Files
    requires w in fs.dirs
  {
    Show(fs.inodes, fs.dirs[w])
  }

  /** The same directories, each with its own full copy of every file. */
  ghost function Views(fs: Fs): (v: map<Where, Files>)
    ensures v.Keys == fs.dirs.Keys
  {
    map w | w in fs.dirs :: Show(fs.inodes, fs.dirs[w])
  }

  // ----- Steps --------------------------------------------------------------------

  datatype FsStep =
    | MkDir(w: Where)
    | Create(w: Where, path: string, ino: Ino, file: File)
    | Link(dir: string, path: string, from: string)         // link(2) from one snapshot into another
    | Unlink(w: Where, path: string)
    | RmDir(w: Where)
    | Overwrite(server: nat, path: string, file: File)      // a server writes one of its files in place

  /** What the appliance and its servers ask of the filesystem: only snapshots are ever
      linked, only live files are ever written in place. */
  predicate CanDo(fs: Fs, e: FsStep) {
    match e
    case MkDir(w) => w !in fs.dirs
    case Create(w, p, i, f) => w in fs.dirs && p !in fs.dirs[w] && i !in fs.inodes
    case Link(d, p, from) =>
      Snap(d) in fs.dirs && Snap(from) in fs.dirs && p in fs.dirs[Snap(from)] && p !in fs.dirs[Snap(d)]
    case Unlink(w, p) => w in fs.dirs && p in fs.dirs[w]
    case RmDir(w) => w in fs.dirs && fs.dirs[w] == map[]
    case Overwrite(s, p, f) => Live(s) in fs.dirs && p in fs.dirs[Live(s)]
  }

  /** unlink(2): drop the name and one link; the last link frees the inode. */
  function UnlinkEntry(fs: Fs, w: Where, p: string): Fs
    requires CanDo(fs, Unlink(w, p))
  {
    var i := fs.dirs[w][p];
    var dirs := fs.dirs[w := fs.dirs[w] - {p}];
    if i in fs.nlink && fs.nlink[i] > 1 then
      fs.(dirs := dirs, nlink := fs.nlink[i := fs.nlink[i] - 1])
    else
      Fs(fs.inodes - {i}, fs.nlink - {i}, dirs)
  }

  /** A fresh inode under a name that is not taken.  rename(2) onto a taken name is
      `Unlink` followed by this. */
  function AddEntry(fs: Fs, w: Where, p: string, i: Ino, f: File): Fs
    requires w in fs.dirs
  {
    Fs(fs.inodes[i := f], fs.nlink[i := 1], fs.dirs[w := fs.dirs[w][p := i]])
  }

  function Do(fs: Fs, e: FsStep): Fs
    requires CanDo(fs, e)
  {
    match e
    case MkDir(w) => fs.(dirs := fs.dirs[w := map[]])
    case Create(w, p, i, f) => AddEntry(fs, w, p, i, f)
    case Link(d, p, from) =>
      var i := fs.dirs[Snap(from)][p];
      fs.(dirs := fs.dirs[Snap(d) := fs.dirs[Snap(d)][p := i]],
          nlink := fs.nlink[i := (if i in fs.nlink then fs.nlink[i] else 0) + 1])
    case Unlink(w, p) => UnlinkEntry(fs, w, p)
    case RmDir(w) => fs.(dirs := fs.dirs - {w})
    case Overwrite(s, p, f) => fs.(inodes := fs.inodes[fs.dirs[Live(s)][p] := f])
  }

  /** The same step on directories that own their files: no inodes, no counts, no sharing. */
  ghost function DoPrivate(v: map<Where, Files>, e: FsStep): map<Where, Files> {
    match e
    case MkDir(w) => v[w := map[]]
    case Create(w, p, i, f) => if w in v then v[w := v[w][p := f]] else v
    case Link(d, p, from) =>
      if Snap(d) in v && Snap(from) in v && p in v[Snap(from)]
      then v[Snap(d) := v[Snap(d)][p := v[Snap(from)][p]]] else v
    case Unlink(w, p) => if w in v then v[w := v[w] - {p}] else v
    case RmDir(w) => v - {w}
    case Overwrite(s, p, f) => if Live(s) in v then v[Live(s) := v[Live(s)][p := f]] else v
  }

  // ----- Refinement ---------------------------------------------------------------

  /** The only name of an inode with one link is the name in hand. */
  lemma SoleName(fs: Fs, w: Where, p: string, x: Where, q: string)
    requires Counted(fs) && Has(fs, w, p) && Has(fs, x, q)
    requires At(fs, w, p) in fs.nlink && fs.nlink[At(fs, w, p)] == 1
    ensures At(fs, x, q) == At(fs, w, p) ==> x == w && q == p
  {
    var refs := Refs(fs, At(fs, w, p));
    if (x, q) in refs {
      assert |refs - {(w, p)}| == 0;
      assert (x, q) !in refs - {(w, p)};
    }
  }

  /** No snapshot shares an inode with a server directory, and no two server files share one. */
  lemma LiveIsolated(fs: Fs, s: nat, p: string, w: Where, q: string)
    requires Ok(fs) && Has(fs, Live(s), p) && Has(fs, w, q)
    ensures At(fs, Live(s), p) == At(fs, w, q) ==> w == Live(s) && q == p
  {
    SoleName(fs, Live(s), p, w, q);
  }

  ghost predicate Closed(inodes: map<Ino, File>, entries: Entries) {
    forall p :: p in entries ==> entries[p] in inodes
  }

  lemma ShowKept(inodes: map<Ino, File>, inodes': map<Ino, File>, entries: Entries)
    requires Closed(inodes, entries)
    requires forall p :: p in entries ==> entries[p] in inodes' && inodes'[entries[p]] == inodes[entries[p]]
    ensures Show(inodes', entries) == Show(inodes, entries)
  {
  }

  lemma ShowAdded(inodes: map<Ino, File>, entries: Entries, p: string, i: Ino)
    requires Closed(inodes, entries) && i in inodes
    ensures Show(inodes, entries[p := i]) == Show(inodes, entries)[p := inodes[i]]
  {
  }

  lemma ShowDropped(inodes: map<Ino, File>, entries: Entries, p: string)
    requires Closed(inodes, entries)
    ensures Show(inodes, entries - {p}) == Show(inodes, entries) - {p}
  {
  }

  lemma ShowWritten(inodes: map<Ino, File>, entries: Entries, p: string, f: File)
    requires Closed(inodes, entries) && p in entries
    requires forall q :: q in entries && q != p ==> entries[q] != entries[p]
    ensures Show(inodes[entries[p] := f], entries) == Show(inodes, entries)[p := f]
  {
  }

  lemma DirClosed(fs: Fs, w: Where)
    requires NoDangling(fs) && w in fs.dirs
    ensures Closed(fs.inodes, fs.dirs[w])
  {
    forall p | p in fs.dirs[w] ensures fs.dirs[w][p] in fs.inodes {
      assert Has(fs, w, p) && At(fs, w, p) == fs.dirs[w][p];
    }
  }

  /** `fs'` shows what `fs` shows, except that directory `w` now shows `files`. */
  ghost predicate Shows(fs: Fs, fs': Fs, w: Where, files: Files) {
    && fs'.dirs.Keys == fs.dirs.Keys + {w}
    && View(fs', w) == files
    && forall x :: x in fs.dirs && x != w ==> View(fs', x) == View(fs, x)
  }

  lemma ShowsViews(fs: Fs, fs': Fs, w: Where, files: Files)
    requires Shows(fs, fs', w, files)
    ensures Views(fs') == Views(fs)[w := files]
  {
    var v, v' := Views(fs)[w := files], Views(fs');
    forall x | x in fs'.dirs ensures v'[x] == v[x] {
      assert v'[x] == View(fs', x);
    }
  }

  lemma UnlinkRefs(fs: Fs, w: Where, p: string, j: Ino)
    requires CanDo(fs, Unlink(w, p))
    ensures Refs(UnlinkEntry(fs, w, p), j) == Refs(fs, j) - {(w, p)}
  {
    var fs' := UnlinkEntry(fs, w, p);
    forall x, q ensures (x, q) in Refs(fs', j) <==> (x, q) in Refs(fs, j) - {(w, p)} {
      assert Has(fs', x, q) <==> Has(fs, x, q) && (x, q) != (w, p);
    }
  }

  lemma UnlinkCounts(fs: Fs, w: Where, p: string)
    requires Ok(fs) && CanDo(fs, Unlink(w, p))
    ensures Counted(UnlinkEntry(fs, w, p))
  {
    assert Has(fs, w, p);
    var i := At(fs, w, p);
    assert (w, p) in Refs(fs, i);
    forall j ensures Refs(UnlinkEntry(fs, w, p), j) == if j == i then Refs(fs, j) - {(w, p)} else Refs(fs, j) {
      UnlinkRefs(fs, w, p, j);
    }
    CountsAfterUnlink(fs, UnlinkEntry(fs, w, p), i, (w, p));
  }

  lemma CountsAfterUnlink(fs: Fs, fs': Fs, i: Ino, name: (Where, string))
    requires Counted(fs) && i in fs.nlink && name in Refs(fs, i)
    requires fs'.inodes == (if fs.nlink[i] == 1 then fs.inodes - {i} else fs.inodes)
    requires fs'.nlink == (if fs.nlink[i] == 1 then fs.nlink - {i} else fs.nlink[i := fs.nlink[i] - 1])
    requires forall j :: Refs(fs', j) == if j == i then Refs(fs, j) - {name} else Refs(fs, j)
    ensures Counted(fs')
  {
    hide Refs;
  }

  lemma UnlinkNames(fs: Fs, w: Where, p: string)
    requires Ok(fs) && CanDo(fs, Unlink(w, p))
    ensures forall x, q :: Has(UnlinkEntry(fs, w, p), x, q) <==> Has(fs, x, q) && (x, q) != (w, p)
    ensures forall x, q :: Has(UnlinkEntry(fs, w, p), x, q) ==>
              var i := At(fs, x, q);
              && At(UnlinkEntry(fs, w, p), x, q) == i
              && i in UnlinkEntry(fs, w, p).inodes && UnlinkEntry(fs, w, p).inodes[i] == fs.inodes[i]
  {
    var fs' := UnlinkEntry(fs, w, p);
    assert Has(fs, w, p);
    forall x, q | Has(fs', x, q)
      ensures Has(fs, x, q) && At(fs', x, q) == At(fs, x, q)
      ensures At(fs, x, q) in fs'.inodes && fs'.inodes[At(fs, x, q)] == fs.inodes[At(fs, x, q)]
    {
      assert Has(fs, x, q) && (x, q) != (w, p);
      if fs.nlink[At(fs, w, p)] == 1 {
        SoleName(fs, w, p, x, q);
      }
    }
  }

  lemma UnlinkOk(fs: Fs, w: Where, p: string)
    requires Ok(fs) && CanDo(fs, Unlink(w, p))
    ensures Ok(UnlinkEntry(fs, w, p))
  {
    hide Counted, Refs;
    var fs' := UnlinkEntry(fs, w, p);
    UnlinkCounts(fs, w, p);
    UnlinkNames(fs, w, p);
    forall s, q | Has(fs', Live(s), q)
      ensures At(fs', Live(s), q) in fs'.nlink && fs'.nlink[At(fs', Live(s), q)] == 1
    {
      assert Has(fs, Live(s), q) && Has(fs, w, p);
      LiveIsolated(fs, s, q, w, p);
    }
  }

  lemma UnlinkShows(fs: Fs, w: Where, p: string)
    requires Ok(fs) && CanDo(fs, Unlink(w, p))
    ensures Shows(fs, UnlinkEntry(fs, w, p), w, View(fs, w) - {p})
  {
    var fs' := UnlinkEntry(fs, w, p);
    UnlinkNames(fs, w, p);
    forall x | x in fs'.dirs ensures View(fs', x) == Show(fs.inodes, fs'.dirs[x]) {
      forall q | q in fs'.dirs[x]
        ensures fs'.dirs[x][q] in fs.inodes && fs'.dirs[x][q] in fs'.inodes
        ensures fs'.inodes[fs'.dirs[x][q]] == fs.inodes[fs'.dirs[x][q]]
      {
        assert Has(fs', x, q) && At(fs', x, q) == fs'.dirs[x][q];
      }
      ShowKept(fs.inodes, fs'.inodes, fs'.dirs[x]);
    }
    DirClosed(fs, w);
    ShowDropped(fs.inodes, fs.dirs[w], p);
  }

  lemma AddRefs(fs: Fs, w: Where, p: string, i: Ino, f: File, j: Ino)
    requires NoDangling(fs) && w in fs.dirs && p !in fs.dirs[w] && i !in fs.inodes
    ensures Refs(AddEntry(fs, w, p, i, f), j) == if j == i then {(w, p)} else Refs(fs, j)
  {
    var fs' := AddEntry(fs, w, p, i, f);
    forall x, q ensures (x, q) in Refs(fs', j) <==> (if j == i then (x, q) == (w, p) else (x, q) in Refs(fs, j)) {
      assert Has(fs', x, q) <==> Has(fs, x, q) || (x, q) == (w, p);
    }
  }

  lemma AddCounts(fs: Fs, w: Where, p: string, i: Ino, f: File)
    requires Ok(fs) && w in fs.dirs && p !in fs.dirs[w] && i !in fs.inodes
    ensures Counted(AddEntry(fs, w, p, i, f))
  {
    forall j { AddRefs(fs, w, p, i, f, j); }
  }

  lemma AddOk(fs: Fs, w: Where, p: string, i: Ino, f: File)
    requires Ok(fs) && w in fs.dirs && p !in fs.dirs[w] && i !in fs.inodes
    ensures Ok(AddEntry(fs, w, p, i, f))
  {
    var fs' := AddEntry(fs, w, p, i, f);
    AddCounts(fs, w, p, i, f);
    forall x, q | Has(fs', x, q)
      ensures At(fs', x, q) in fs'.inodes
      ensures x.Live? ==> fs'.nlink[At(fs', x, q)] == 1
    {
      if (x, q) != (w, p) {
        assert Has(fs, x, q) && At(fs', x, q) == At(fs, x, q);
      }
    }
  }

  lemma AddShows(fs: Fs, w: Where, p: string, i: Ino, f: File)
    requires NoDangling(fs) && w in fs.dirs && i !in fs.inodes
    ensures Shows(fs, AddEntry(fs, w, p, i, f), w, View(fs, w)[p := f])
  {
    var fs' := AddEntry(fs, w, p, i, f);
    forall x | x in fs.dirs ensures Closed(fs'.inodes, fs.dirs[x]) && Show(fs'.inodes, fs.dirs[x]) == View(fs, x) {
      DirClosed(fs, x);
      ShowKept(fs.inodes, fs'.inodes, fs.dirs[x]);
    }
    ShowAdded(fs'.inodes, fs.dirs[w], p, i);
  }

  lemma LinkRefs(fs: Fs, d: string, p: string, from: string, j: Ino)
    requires CanDo(fs, Link(d, p, from))
    ensures Refs(Do(fs, Link(d, p, from)), j)
         == if j == fs.dirs[Snap(from)][p] then Refs(fs, j) + {(Snap(d), p)} else Refs(fs, j)
  {
    var fs' := Do(fs, Link(d, p, from));
    var i := fs.dirs[Snap(from)][p];
    forall x, q ensures (x, q) in Refs(fs', j) <==> (x, q) in Refs(fs, j) || (j == i && (x, q) == (Snap(d), p)) {
      assert Has(fs', x, q) <==> Has(fs, x, q) || (x, q) == (Snap(d), p);
    }
  }

  lemma LinkCounts(fs: Fs, d: string, p: string, from: string)
    requires Ok(fs) && CanDo(fs, Link(d, p, from))
    ensures Counted(Do(fs, Link(d, p, from)))
  {
    var fs', i := Do(fs, Link(d, p, from)), fs.dirs[Snap(from)][p];
    assert Has(fs, Snap(from), p) && At(fs, Snap(from), p) == i;
    assert (Snap(d), p) !in Refs(fs, i);
    assert fs'.inodes == fs.inodes && fs'.nlink == fs.nlink[i := fs.nlink[i] + 1];
    forall j ensures Refs(fs', j) == if j == i then Refs(fs, j) + {(Snap(d), p)} else Refs(fs, j) {
      LinkRefs(fs, d, p, from, j);
    }
    CountsAfterLink(fs, fs', i, (Snap(d), p));
  }

  lemma CountsAfterLink(fs: Fs, fs': Fs, i: Ino, name: (Where, string))
    requires Counted(fs) && i in fs.nlink && name !in Refs(fs, i)
    requires fs'.inodes == fs.inodes && fs'.nlink == fs.nlink[i := fs.nlink[i] + 1]
    requires forall j :: Refs(fs', j) == if j == i then Refs(fs, j) + {name} else Refs(fs, j)
    ensures Counted(fs')
  {
    hide Refs;
  }

  lemma LinkOk(fs: Fs, d: string, p: string, from: string)
    requires Ok(fs) && CanDo(fs, Link(d, p, from))
    ensures Ok(Do(fs, Link(d, p, from)))
  {
    var fs' := Do(fs, Link(d, p, from));
    LinkCounts(fs, d, p, from);
    assert Has(fs, Snap(from), p);
    forall x, q | Has(fs', x, q)
      ensures At(fs', x, q) in fs'.inodes
      ensures x.Live? ==> fs'.nlink[At(fs', x, q)] == 1
    {
      if (x, q) != (Snap(d), p) {
        assert Has(fs, x, q) && At(fs', x, q) == At(fs, x, q);
        if x.Live? {
          LiveIsolated(fs, x.server, q, Snap(from), p);
        }
      }
    }
  }

  lemma LinkShows(fs: Fs, d: string, p: string, from: string)
    requires Ok(fs) && CanDo(fs, Link(d, p, from))
    ensures p in View(fs, Snap(from))
    ensures Shows(fs, Do(fs, Link(d, p, from)), Snap(d), View(fs, Snap(d))[p := View(fs, Snap(from))[p]])
  {
    DirClosed(fs, Snap(from));
    DirClosed(fs, Snap(d));
    ShowAdded(fs.inodes, fs.dirs[Snap(d)], p, fs.dirs[Snap(from)][p]);
  }

  lemma DirOk(fs: Fs, e: FsStep)
    requires Ok(fs) && CanDo(fs, e) && (e.MkDir? || e.RmDir?)
    ensures Ok(Do(fs, e))
  {
    var fs' := Do(fs, e);
    assert forall x, q :: Has(fs', x, q) <==> Has(fs, x, q);
    assert forall x, q :: Has(fs', x, q) ==> At(fs', x, q) == At(fs, x, q);
    forall j ensures Refs(fs', j) == Refs(fs, j) {
      forall x, q ensures (x, q) in Refs(fs', j) <==> (x, q) in Refs(fs, j) { }
    }
  }

  lemma MkDirShows(fs: Fs, w: Where)
    requires CanDo(fs, MkDir(w))
    ensures Shows(fs, Do(fs, MkDir(w)), w, map[])
  {
    assert Show(fs.inodes, map[]) == map[];
  }

  lemma RmDirShows(fs: Fs, w: Where)
    requires CanDo(fs, RmDir(w))
    ensures Views(Do(fs, RmDir(w))) == Views(fs) - {w}
  {
    var v, v' := Views(fs) - {w}, Views(Do(fs, RmDir(w)));
    forall x | x in v' ensures x in v && v'[x] == v[x] {
      assert v'[x] == Show(fs.inodes, fs.dirs[x]);
    }
  }

  lemma OverwriteOk(fs: Fs, s: nat, p: string, f: File)
    requires Ok(fs) && CanDo(fs, Overwrite(s, p, f))
    ensures Ok(Do(fs, Overwrite(s, p, f)))
  {
    var fs' := Do(fs, Overwrite(s, p, f));
    assert Has(fs, Live(s), p);
    assert forall x, q :: Has(fs', x, q) <==> Has(fs, x, q);
    assert forall x, q :: Has(fs', x, q) ==> At(fs', x, q) == At(fs, x, q);
    forall j ensures Refs(fs', j) == Refs(fs, j) {
      forall x, q ensures (x, q) in Refs(fs', j) <==> (x, q) in Refs(fs, j) { }
    }
  }

  lemma OverwriteShows(fs: Fs, s: nat, p: string, f: File)
    requires Ok(fs) && CanDo(fs, Overwrite(s, p, f))
    ensures Shows(fs, Do(fs, Overwrite(s, p, f)), Live(s), View(fs, Live(s))[p := f])
  {
    var fs' := Do(fs, Overwrite(s, p, f));
    assert Has(fs, Live(s), p);
    forall x | x in fs.dirs && x != Live(s) ensures View(fs', x) == View(fs, x) {
      DirClosed(fs, x);
      forall q | q in fs.dirs[x] ensures fs.dirs[x][q] != fs.dirs[Live(s)][p] {
        assert Has(fs, x, q) && At(fs, x, q) == fs.dirs[x][q];
        LiveIsolated(fs, s, p, x, q);
      }
      ShowKept(fs.inodes, fs'.inodes, fs.dirs[x]);
    }
    DirClosed(fs, Live(s));
    forall q | q in fs.dirs[Live(s)] && q != p ensures fs.dirs[Live(s)][q] != fs.dirs[Live(s)][p] {
      assert Has(fs, Live(s), q);
      LiveIsolated(fs, s, p, Live(s), q);
    }
    ShowWritten(fs.inodes, fs.dirs[Live(s)], p, f);
  }

  /** One step on shared inodes is the same step on private copies, and keeps the discipline. */
  lemma {:induction false} StepRefines(fs: Fs, e: FsStep)
    requires Ok(fs) && CanDo(fs, e)
    ensures Ok(Do(fs, e))
    ensures Views(Do(fs, e)) == DoPrivate(Views(fs), e)
  {
    var fs' := Do(fs, e);
    match e
    case MkDir(w) =>
      DirOk(fs, e);
      MkDirShows(fs, w);
      ShowsViews(fs, fs', w, map[]);
    case RmDir(w) =>
      DirOk(fs, e);
      RmDirShows(fs, w);
    case Link(d, p, from) =>
      LinkOk(fs, d, p, from);
      LinkShows(fs, d, p, from);
      ShowsViews(fs, fs', Snap(d), View(fs, Snap(d))[p := View(fs, Snap(from))[p]]);
    case Unlink(w, p) =>
      UnlinkOk(fs, w, p);
      UnlinkShows(fs, w, p);
      ShowsViews(fs, fs', w, View(fs, w) - {p});
    case Overwrite(s, p, f) =>
      OverwriteOk(fs, s, p, f);
      OverwriteShows(fs, s, p, f);
      ShowsViews(fs, fs', Live(s), View(fs, Live(s))[p := f]);
    case Create(w, p, i, f) =>
      AddOk(fs, w, p, i, f);
      AddShows(fs, w, p, i, f);
      ShowsViews(fs, fs', w, View(fs, w)[p := f]);
  }

  lemma ViewKeys(fs: Fs, w: Where)
    requires Ok(fs) && w in fs.dirs
    ensures Views(fs)[w] == View(fs, w) && Views(fs)[w].Keys == fs.dirs[w].Keys
  {
    DirClosed(fs, w);
  }

  /** Renaming onto a taken name: the old name goes, the new file comes. */
  lemma ReplacedView(v: map<Where, Files>, w: Where, p: string, i: Ino, f: File)
    requires w in v
    ensures DoPrivate(DoPrivate(v, Unlink(w, p)), Create(w, p, i, f)) == v[w := v[w][p := f]]
  {
    assert (v[w] - {p})[p := f] == v[w][p := f];
  }

  ghost predicate CanDoAll(fs: Fs, es: seq<FsStep>)
    decreases |es|
  {
    es == [] || (CanDo(fs, es[0]) && CanDoAll(Do(fs, es[0]), es[1..]))
  }

  function DoAll(fs: Fs, es: seq<FsStep>): Fs
    requires CanDoAll(fs, es)
    decreases |es|
  {
    if es == [] then fs else DoAll(Do(fs, es[0]), es[1..])
  }

  ghost function DoAllPrivate(v: map<Where, Files>, es: seq<FsStep>): map<Where, Files>
    decreases |es|
  {
    if es == [] then v else DoAllPrivate(DoPrivate(v, es[0]), es[1..])
  }

  /** Over every run, the hardlinked store shows exactly what a store of private copies shows. */
  lemma {:induction false} RunRefines(fs: Fs, es: seq<FsStep>)
    requires Ok(fs) && CanDoAll(fs, es)
    ensures Ok(DoAll(fs, es))
    ensures Views(DoAll(fs, es)) == DoAllPrivate(Views(fs), es)
    decreases |es|
  {
    if es != [] {
      StepRefines(fs, es[0]);
      RunRefines(Do(fs, es[0]), es[1..]);
    }
  }

  ghost predicate Touches(e: FsStep, w: Where) {
    match e
    case MkDir(x) => x == w
    case Create(x, _, _, _) => x == w
    case Link(d, _, _) => Snap(d) == w
    case Unlink(x, _) => x == w
    case RmDir(x) => x == w
    case Overwrite(s, _, _) => Live(s) == w
  }

  lemma StepKeepsUntouched(fs: Fs, e: FsStep, w: Where)
    requires Ok(fs) && CanDo(fs, e) && w in fs.dirs && !Touches(e, w)
    ensures Ok(Do(fs, e)) && w in Do(fs, e).dirs && View(Do(fs, e), w) == View(fs, w)
  {
    StepRefines(fs, e);
    hide Ok, Do;
    assert Views(Do(fs, e))[w] == Views(fs)[w];
  }

  /** Isolation over a whole run: whatever is done to other directories (removing the
      generation this one was linked from, a server rewriting its files), a directory
      that no step names still holds the same files. */
  lemma {:induction false} UntouchedKeepsFiles(fs: Fs, es: seq<FsStep>, w: Where)
    requires Ok(fs) && CanDoAll(fs, es) && w in fs.dirs
    requires forall e :: e in es ==> !Touches(e, w)
    ensures w in DoAll(fs, es).dirs
    ensures Ok(DoAll(fs, es)) && View(DoAll(fs, es), w) == View(fs, w)
    decreases |es|
  {
    if es != [] {
      hide Ok, Do, View, Touches, CanDo;
      StepKeepsUntouched(fs, es[0], w);
      UntouchedKeepsFiles(Do(fs, es[0]), es[1..], w);
    }
  }

  // ----- rsync's quick check ------------------------------------------------------

  /** The tree that `rsync -a --link-dest link src/ dst/` builds in an empty `dst`: a file
      whose metadata matches is linked without reading its contents. */
  function QuickCopy(src: Files, link: Files): Files {
    map p | p in src :: if p in link && link[p].meta == src[p].meta then link[p] else src[p]
  }

  /** A snapshot is exact precisely when equal metadata at a path implies equal contents. */
  lemma {:induction false} QuickCopyExactIff(src: Files, link: Files)
    ensures QuickCopy(src, link) == src
       <==> forall p :: p in src && p in link && link[p].meta == src[p].meta ==> link[p].data == src[p].data
  {
    var c := QuickCopy(src, link);
    if c == src {
      forall p | p in src && p in link && link[p].meta == src[p].meta
        ensures link[p].data == src[p].data
      {
        assert c[p] == src[p];
      }
    }
  }

  /** And it can fail: a same-size write that keeps the old modification time is not seen. */
  lemma QuickCopyCanBeStale()
    ensures exists src: Files, link: Files :: QuickCopy(src, link) != src
  {
    var m := Meta(1, 0, 0);
    var src: Files := map["level.dat" := File(m, "b")];
    var link: Files := map["level.dat" := File(m, "a")];
    assert QuickCopy(src, link)["level.dat"].data == "a";
  }

  /** What a file at a path with given metadata holds.  Only directories of one kin need agree:
      a server's own directory and the snapshots of it. */
  datatype Contents = Contents(kin: Where -> nat, truth: (nat, string, Meta) -> string)

  /** Every file of directory `x` holds what its metadata says. */
  ghost predicate Honest(c: Contents, x: Where, files: Files) {
    forall p :: p in files ==> files[p].data == c.truth(c.kin(x), p, files[p].meta)
  }

  lemma HonestAgree(c: Contents, x: Where, a: Files, y: Where, b: Files, p: string)
    requires Honest(c, x, a) && Honest(c, y, b) && c.kin(x) == c.kin(y)
    requires p in a && p in b && a[p].meta == b[p].meta
    ensures a[p] == b[p]
  {
  }

  /** Under honest metadata rsync's tree is the source tree. */
  lemma HonestQuickCopy(c: Contents, x: Where, src: Files, y: Where, link: Files)
    requires Honest(c, x, src) && Honest(c, y, link) && c.kin(x) == c.kin(y)
    ensures QuickCopy(src, link) == src
  {
    forall p | p in src && p in link && link[p].meta == src[p].meta ensures link[p].data == src[p].data {
      HonestAgree(c, x, src, y, link, p);
    }
    QuickCopyExactIff(src, link);
  }
}
