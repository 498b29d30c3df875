/** What happens without the appliance, as a schedule: each time the appliance looks away, the
    next burst of it comes to pass. */
module Environments {
  import opened Hardlinks
  import opened Worlds
  import opened Runs

  datatype Move =
    | Ends(pid: nat)
    | Writes(server: nat, path: string, meta: Meta, inPlace: bool)
    | Erases(server: nat, path: string)

  /** Some more time than the appliance waits for, and then these moves. */
  datatype Burst = Burst(more: real, moves: seq<Move>)

  const QUIET := Burst(0.0, [])

  function StepOf(c: Contents, m: Move): EnvStep {
    match m
    case Ends(pid) => Exit(pid)
    case Writes(s, p, meta, _) => Serve(s, p, File(meta, c.truth(c.kin(Live(s)), p, meta)))
    case Erases(s, p) => Unserve(s, p)
  }

  /** A move of a process that is not there does nothing. */
  function Happen(c: Contents, w: World, m: Move): World {
    if EnvEnabled(w, StepOf(c, m)) then ApplyEnv(w, StepOf(c, m)) else w
  }

  function HappenAll(c: Contents, w: World, ms: seq<Move>): (w': World)
    ensures w'.servers == w.servers && w'.now == w.now
    decreases |ms|
  {
    if ms == [] then w else HappenAll(c, Happen(c, w, ms[0]), ms[1..])
  }

  function Next(future: seq<Burst>): Burst {
    if future == [] then QUIET else future[0]
  }

  function Later(future: seq<Burst>): seq<Burst> {
    if future == [] then [] else future[1..]
  }

  function Span(least: real, b: Burst): real {
    if b.more > 0.0 then least + b.more else least
  }

  /** The world after waiting `least` seconds or more. */
  function Advance(c: Contents, w: World, least: real, future: seq<Burst>): (w': World)
    requires least >= 0.0
    ensures w'.servers == w.servers && w'.now >= w.now + least
  {
    HappenAll(c, ApplyEnv(w, Pass(Span(least, Next(future)))), Next(future).moves)
  }

  /** What the environment cannot change: only the clock, processes ending, and the files
      of servers that had a process. */
  predicate EnvFrame(w: World, w': World) {
    && w'.servers == w.servers && SameBook(w, w') && w'.signals == w.signals && w'.now >= w.now
    && (forall q :: q in w'.procs ==> q in w.procs && w'.procs[q] == w.procs[q])
    && w'.trees.Keys == w.trees.Keys
    && forall x :: x in w.trees && (x.Snap? || !HasProcess(w, x.server)) ==> w'.trees[x] == w.trees[x]
  }

  lemma EnvFrameReflexive(w: World)
    ensures EnvFrame(w, w)
  {
  }

  lemma EnvFrameTransitive(a: World, b: World, c: World)
    requires EnvFrame(a, b) && EnvFrame(b, c)
    ensures EnvFrame(a, c)
  {
    assert forall s :: HasProcess(b, s) ==> HasProcess(a, s);
  }

  lemma StepIsFramed(w: World, e: EnvStep)
    requires EnvEnabled(w, e)
    ensures EnvFrame(w, ApplyEnv(w, e))
  {
  }

  lemma {:induction false} MovesAreFramed(c: Contents, w: World, ms: seq<Move>)
    ensures EnvFrame(w, HappenAll(c, w, ms))
    decreases |ms|
  {
    hide EnvFrame, EnvEnabled;
    if ms == [] {
      EnvFrameReflexive(w);
    } else {
      var w1 := Happen(c, w, ms[0]);
      EnvFrameReflexive(w);
      if EnvEnabled(w, StepOf(c, ms[0])) {
        StepIsFramed(w, StepOf(c, ms[0]));
      }
      MovesAreFramed(c, w1, ms[1..]);
      EnvFrameTransitive(w, w1, HappenAll(c, w, ms));
    }
  }

  lemma AdvanceIsFramed(c: Contents, w: World, least: real, future: seq<Burst>)
    requires least >= 0.0
    ensures EnvFrame(w, Advance(c, w, least, future))
  {
    var pass := Pass(Span(least, Next(future)));
    var w1 := ApplyEnv(w, pass);
    StepIsFramed(w, pass);
    MovesAreFramed(c, w1, Next(future).moves);
    hide EnvFrame;
    EnvFrameTransitive(w, w1, Advance(c, w, least, future));
  }
}
