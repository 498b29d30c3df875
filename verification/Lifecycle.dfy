/** Starting and stopping one server.  Each method follows the function of the same name;
    the environment moves before every look at a process, so a process may end, or write to
    its files, between any two steps. */
module Lifecycle {
  import opened Options
  import opened Hardlinks
  import opened Worlds
  import opened Runs
  import opened Environments
  import opened Appliances
  import opened Hosts
  import opened Rcon

  const RCON_STOP_TIMEOUT: nat := 30
  const STDIN_STOP_TIMEOUT: nat := 30
  const STOP_TIMEOUT: nat := 10
  const POLL_SECONDS := 0.5

  /** What refreshing, stopping or killing server `s` leaves alone: every other row, every
      snapshot, the files of every server without a process; and no process is added. */
  predicate StopFrame(w: World, w': World, s: nat) {
    && s in w.servers && s in w'.servers
    && w'.servers == w.servers[s := w'.servers[s]] && w'.servers[s].settings == w.servers[s].settings
    && EnvFrame(w.(servers := w'.servers, signals := w'.signals), w')
  }

  lemma StopFrameTransitive(a: World, b: World, c: World, s: nat)
    requires StopFrame(a, b, s) && StopFrame(b, c, s)
    ensures StopFrame(a, c, s)
  {
    EnvFrameTransitive(a.(servers := c.servers, signals := c.signals), b.(servers := c.servers, signals := c.signals), c);
  }

  lemma EnvStops(a: World, b: World, s: nat)
    requires EnvFrame(a, b) && s in a.servers
    ensures StopFrame(a, b, s) && b.servers == a.servers && b.signals == a.signals
  {
  }

  /** Writing the server's own row, or signalling its process, stays within the frame. */
  lemma NoteStops(w: World, s: nat, e: ServerStep)
    requires ServerEnabled(w, s, e) && !e.Spawn? && !e.Configure?
    ensures StopFrame(w, ApplyServer(w, s, e), s)
    ensures e.NoteStopped? ==> RowStopped(ApplyServer(w, s, e), s)
  {
  }

  lemma NoteKeepsProcess(w: World, s: nat, e: ServerStep)
    requires ServerEnabled(w, s, e) && !e.Spawn?
    ensures HasProcess(ApplyServer(w, s, e), s) <==> HasProcess(w, s)
    ensures ApplyServer(w, s, e).now == w.now
  {
  }

  predicate RowStopped(w: World, s: nat) {
    s in w.servers && w.servers[s].pid.None? && w.servers[s].status.Stopped? && !HasProcess(w, s)
  }

  // ----- Liveness ------------------------------------------------------------------

  /** A faithful look at whether `pid` is this server's live process. */
  method ProcessIsMinecraft(a: Appliance, s: nat, pid: nat) returns (alive: bool)
    requires a.Valid()
    modifies a
    ensures a.Valid() && EnvFrame(old(a.W()), a.W()) && Only(old(a.log), a.log, {Outside})
    ensures a.W() == Advance(a.contents, old(a.W()), 0.0, old(a.future)) && a.future == Later(old(a.future))
    ensures Passes(a.log) == Passes(old(a.log)) + 1
    ensures alive <==> IsProcess(a.W(), s, pid)
  {
    a.Elapse(0.0);
    alive := pid in a.procs && a.procs[pid] == s;
  }

  predicate IsProcess(w: World, s: nat, pid: nat) {
    pid in w.procs && w.procs[pid] == s
  }

  /** The world at a refresh's look: a row without a pid is not looked at. */
  function Seen(c: Contents, w: World, s: nat, future: seq<Burst>): (w': World)
    ensures w'.servers == w.servers
  {
    if s in w.servers && w.servers[s].pid.Some? then Advance(c, w, 0.0, future) else w
  }

  function AfterLook(w: World, s: nat, future: seq<Burst>): seq<Burst> {
    if s in w.servers && w.servers[s].pid.Some? then Later(future) else future
  }

  predicate Alive(w: World, s: nat) {
    && s in w.servers && w.servers[s].pid.Some?
    && w.servers[s].pid.value in w.procs && w.procs[w.servers[s].pid.value] == s
  }

  /** The row put right by what was seen. */
  function PutRight(w: World, s: nat): World
    requires s in w.servers
  {
    var row := w.servers[s];
    w.(servers := w.servers[s := if Alive(w, s) then row.(status := Running) else row.(pid := None, status := Stopped)])
  }

  /** What a refresh's look finds, and what it makes of the world. */
  predicate FoundAlive(c: Contents, w: World, s: nat, future: seq<Burst>) {
    Alive(Seen(c, w, s, future), s)
  }

  function Refreshed(c: Contents, w: World, s: nat, future: seq<Burst>): (w': World)
    requires s in w.servers
    ensures s in w'.servers && (w'.servers[s].status.Running? <==> FoundAlive(c, w, s, future))
  {
    PutRight(Seen(c, w, s, future), s)
  }

  /** A row that is right about there being no process is not looked at. */
  lemma RefreshedIdle(c: Contents, w: World, s: nat, future: seq<Burst>)
    requires RowIdle(w, s)
    ensures Refreshed(c, w, s, future) == w
  {
    RightAlready(w, s);
  }

  predicate RowIdle(w: World, s: nat) {
    s in w.servers && w.servers[s].pid.None? && w.servers[s].status.Stopped?
  }

  /** A row that is right already stays. */
  lemma RightAlready(w: World, s: nat)
    requires s in w.servers
    ensures Alive(w, s) && w.servers[s].status.Running? ==> PutRight(w, s) == w
    ensures RowIdle(w, s) ==> PutRight(w, s) == w
  {
    assert w.servers[s := w.servers[s]] == w.servers;
  }

  /** Reconciles the row with the process it records.  The row of a crash between a launch and
      the commit of its pid records none, and is found stopped. */
  method RefreshStatus(a: Appliance, s: nat) returns (status: Status)
    requires (a.Valid() || (a.Stored() && RowIdle(a.W(), s))) && s in a.servers
    modifies a
    ensures a.Stored() && (old(a.Valid()) ==> a.Valid()) && s in a.servers
    ensures a.W() == Refreshed(a.contents, old(a.W()), s, old(a.future))
    ensures a.future == AfterLook(old(a.W()), s, old(a.future))
    ensures StopFrame(old(a.W()), a.W(), s) && Only(old(a.log), a.log, {Outside, RowKeeping})
    ensures status == a.servers[s].status && a.servers[s].lastStop == old(a.servers[s].lastStop)
    ensures a.signals == old(a.signals)
    ensures status.Running? ==> HasProcess(a.W(), s) && a.servers[s].pid == old(a.servers[s].pid)
    ensures old(a.servers[s].pid).None? ==> status.Stopped?
    ensures status.Stopped? ==> RowIdle(a.W(), s) && (old(a.Valid()) ==> RowStopped(a.W(), s))
    ensures a.now >= old(a.now)
  {
    hide Appliance.Valid, Appliance.Stored, StopFrame, EnvFrame, Only;
    ghost var w, l0 := a.W(), a.log;
    EnvFrameReflexive(w);
    EnvStops(w, w, s);
    NoneYet(l0, {Outside, RowKeeping});
    if a.servers[s].pid.None? && a.servers[s].status == Stopped {
      RightAlready(w, s);
      if old(a.Valid()) {
        a.Recorded(s);
      }
      a.ValidIsStored();
      return Stopped;
    }
    status := PutRowRight(a, s);
  }

  /** The same for a row that claims something. */
  method PutRowRight(a: Appliance, s: nat) returns (status: Status)
    requires a.Valid() && s in a.servers && (a.servers[s].pid.Some? || a.servers[s].status.Running?)
    modifies a
    ensures a.Valid() && a.Stored() && s in a.servers
    ensures a.W() == Refreshed(a.contents, old(a.W()), s, old(a.future))
    ensures a.future == AfterLook(old(a.W()), s, old(a.future))
    ensures StopFrame(old(a.W()), a.W(), s) && Only(old(a.log), a.log, {Outside, RowKeeping})
    ensures status == a.servers[s].status && a.servers[s].lastStop == old(a.servers[s].lastStop)
    ensures a.signals == old(a.signals)
    ensures status.Running? ==> HasProcess(a.W(), s) && a.servers[s].pid == old(a.servers[s].pid)
    ensures old(a.servers[s].pid).None? ==> status.Stopped?
    ensures status.Stopped? ==> RowStopped(a.W(), s)
    ensures a.now >= old(a.now)
  {
    hide Appliance.Valid, Appliance.Stored, StopFrame, EnvFrame, Advance, Only, HasProcess;
    ghost var w, log := a.W(), a.log;
    EnvFrameReflexive(w);
    EnvStops(w, w, s);
    NoneYet(log, {Outside, RowKeeping});
    a.Recorded(s);
    a.ValidIsStored();
    if a.servers[s].pid.Some? {
      var alive := ProcessIsMinecraft(a, s, a.servers[s].pid.value);
      EnvStops(w, a.W(), s);
      OnlyMore(log, a.log, {Outside}, {Outside, RowKeeping});
      a.Recorded(s);
      RightAlready(a.W(), s);
      a.ValidIsStored();
      OneMore(log, a.log, OnServer(s, NoteRunning), {Outside, RowKeeping});
      if alive {
        if a.servers[s].status != Running {
          ghost var w1 := a.W();
          a.MarkRunning(s);
          NoteStops(w1, s, NoteRunning);
          NoteKeepsProcess(w1, s, NoteRunning);
          StopFrameTransitive(w, w1, a.W(), s);
          a.ValidIsStored();
        }
        return Running;
      }
    }
    ghost var w1 := a.W();
    OneMore(log, a.log, OnServer(s, NoteStopped(None)), {Outside, RowKeeping});
    a.MarkStopped(s, None);
    NoteStops(w1, s, NoteStopped(None));
    StopFrameTransitive(w, w1, a.W(), s);
    a.ValidIsStored();
    return Stopped;
  }

  /** A world, and what is still to happen in it without the appliance. */
  datatype Moment = Moment(world: World, future: seq<Burst>)

  /** Where a wait for process `pid` ends: at the first look, half a second or more after the
      one before, that finds it gone or comes at the deadline or later. */
  function LastLook(c: Contents, w: World, s: nat, pid: nat, deadline: real, future: seq<Burst>): (m: Moment)
    ensures m.world.servers == w.servers
    decreases 2.0 * (deadline - w.now)
  {
    var m := Moment(Advance(c, w, 0.0, future), Later(future));
    if w.now >= deadline || !IsProcess(m.world, s, pid) then m
    else LastLook(c, Advance(c, m.world, 0.5, m.future), s, pid, deadline, Later(m.future))
  }

  /** Poll until the process is gone or the deadline passes.  At most two looks a second
      and one more; true means the last look found it gone, false that it found it alive
      after the whole time allowed. */
  method WaitForExit(a: Appliance, s: nat, pid: nat, timeout: nat) returns (exited: bool, looks: nat)
    requires a.Valid()
    modifies a
    ensures a.Valid() && EnvFrame(old(a.W()), a.W()) && Only(old(a.log), a.log, {Outside})
    ensures Moment(a.W(), a.future)
         == LastLook(a.contents, old(a.W()), s, pid, old(a.now) + timeout as real, old(a.future))
    ensures exited <==> !IsProcess(a.W(), s, pid)
    // Every look and every sleep lets time pass once, and they take turns.
    ensures 1 <= looks <= 2 * timeout + 1 && Passes(a.log) == Passes(old(a.log)) + 2 * looks - 1
    ensures a.now >= old(a.now) + if exited then 0.0 else timeout as real
  {
    hide Appliance.Valid, Appliance.Stored, EnvFrame, Advance, Only, Passes, IsProcess;
    ghost var w, log, f0 := a.W(), a.log, a.future;
    EnvFrameReflexive(w);
    NoneYet(log, {Outside});
    var begun := a.now;
    var deadline := a.now + timeout as real;
    looks := 0;
    while a.now < deadline
      invariant a.Valid() && EnvFrame(w, a.W()) && Only(log, a.log, {Outside})
      invariant LastLook(a.contents, a.W(), s, pid, deadline, a.future) == LastLook(a.contents, w, s, pid, deadline, f0)
      invariant looks <= 2 * timeout && a.now >= begun + 0.5 * looks as real
      invariant Passes(a.log) == Passes(log) + 2 * looks
      decreases 2.0 * (deadline - a.now)
    {
      ghost var w1, l1 := a.W(), a.log;
      var alive := ProcessIsMinecraft(a, s, pid);
      EnvFrameTransitive(w, w1, a.W());
      OnlyTransitive(log, l1, a.log, {Outside}, {Outside}, {Outside});
      looks := looks + 1;
      if !alive {
        return true, looks;
      }
      ghost var w2, l2 := a.W(), a.log;
      a.Elapse(POLL_SECONDS);
      EnvFrameTransitive(w, w2, a.W());
      OnlyTransitive(log, l2, a.log, {Outside}, {Outside}, {Outside});
    }
    ghost var w3, l3 := a.W(), a.log;
    var alive := ProcessIsMinecraft(a, s, pid);
    EnvFrameTransitive(w, w3, a.W());
    OnlyTransitive(log, l3, a.log, {Outside}, {Outside}, {Outside});
    return !alive, looks + 1;
  }

  // ----- Starting ------------------------------------------------------------------

  datatype StartReport = AlreadyRunning | NoServerDir | NoJar | LaunchFailed | Started(pid: nat)

  /** Steps of the given sorts, and after them the launch and its commit, if there was one. */
  ghost predicate LaunchesLast(before: seq<Label>, after: seq<Label>, s: nat, sorts: set<Sort>, r: StartReport) {
    if r.Started? then
      && |before| + 2 <= |after| && Only(before, after[..|after| - 2], sorts)
      && after[|after| - 2..] == [OnServer(s, Spawn(r.pid)), OnServer(s, NoteLaunched(r.pid))]
    else Only(before, after, sorts)
  }

  /** Apart from the process a start launched, it leaves alone what a stop leaves alone. */
  predicate StartFrame(w: World, w': World, s: nat, r: StartReport) {
    if r.Started? then
      && r.pid in w'.procs && w'.procs[r.pid] == s
      && s in w'.servers && w'.servers[s].pid == Some(r.pid) && w'.servers[s].status.Running?
      && StopFrame(w, w'.(procs := w'.procs - {r.pid}), s)
    else StopFrame(w, w', s)
  }

  lemma StartAfterStop(a: World, b: World, c: World, s: nat, r: StartReport)
    requires StopFrame(a, b, s) && StartFrame(b, c, s, r)
    ensures StartFrame(a, c, s, r)
  {
    hide StopFrame;
    StopFrameTransitive(a, b, if r.Started? then c.(procs := c.procs - {r.pid}) else c, s);
  }

  lemma LaunchIsFramed(w: World, s: nat, pid: nat)
    requires ServerEnabled(w, s, Spawn(pid))
    ensures StartFrame(w, ApplyLaunch(w, s, pid), s, Started(pid))
  {
    assert w.procs[pid := s] - {pid} == w.procs;
  }

  /** The operating system's choice of a pid not in use. */
  method FreshPid(a: Appliance) returns (pid: nat)
    ensures pid !in a.procs
  {
    pid := 1;
    ghost var seen: set<nat> := {};
    while pid in a.procs
      invariant forall q :: q in seen ==> q < pid
      invariant seen <= a.procs.Keys
      decreases |a.procs.Keys| - |seen|
    {
      seen := seen + {pid};
      SubsetSize(seen, a.procs.Keys);
      pid := pid + 1;
    }
  }

  function JarOf(settings: Settings): string {
    if settings.jar == "" then "server.jar" else settings.jar
  }

  /** What decides the outcome of a start: the process there already, the directory, the jar,
      and whether the launch works. */
  predicate StartOutcome(w: World, s: nat, h: Host, r: StartReport) {
    && s in w.servers
    && match r
       case AlreadyRunning => HasProcess(w, s)
       case NoServerDir => RowStopped(w, s) && Live(s) !in w.trees
       case NoJar => RowStopped(w, s) && Live(s) in w.trees && !CanLaunch(w, s)
       case LaunchFailed =>
         RowStopped(w, s) && CanLaunch(w, s) && !h.launches
       case Started(_) => CanLaunch(w, s) && h.launches
  }

  /** The server's directory is there, and in it the jar chosen for it, or server.jar when none
      was. */
  predicate CanLaunch(w: World, s: nat) {
    && s in w.servers && Live(s) in w.trees
    && if w.servers[s].settings.jar == "" then "server.jar" in w.trees[Live(s)]
       else w.servers[s].settings.jar in w.trees[Live(s)]
  }

  lemma CanLaunchIff(w: World, s: nat)
    requires s in w.servers
    ensures CanLaunch(w, s) <==> Live(s) in w.trees && JarOf(w.servers[s].settings) in w.trees[Live(s)]
  {
  }

  /** The world in which a start checks the directory and launches. */
  function AtLaunch(c: Contents, w: World, s: nat, future: seq<Burst>): World
    requires s in w.servers
  {
    Advance(c, Refreshed(c, w, s, future), 0.0, AfterLook(w, s, future))
  }

  /** A start is determined by the world, the schedule and the host. */
  ghost predicate StartedFrom(c: Contents, w: World, future: seq<Burst>, s: nat, h: Host, r: StartReport, w': World) {
    && s in w.servers
    && if FoundAlive(c, w, s, future) then
         r.AlreadyRunning? && w' == Refreshed(c, w, s, future)
       else
         LaunchedIn(AtLaunch(c, w, s, future), s, h, r, w')
  }

  /** What comes of a launch attempted in world `x`. */
  predicate LaunchedIn(x: World, s: nat, h: Host, r: StartReport, w': World) {
    if CanLaunch(x, s) && h.launches then
      r.Started? && ServerEnabled(x, s, Spawn(r.pid)) && w' == ApplyLaunch(x, s, r.pid)
    else
      w' == x && r == if Live(s) !in x.trees then NoServerDir else if !CanLaunch(x, s) then NoJar else LaunchFailed
  }

  lemma LaunchOutcome(x: World, s: nat, h: Host, r: StartReport, w': World)
    requires LaunchedIn(x, s, h, r, w') && RowIdle(x, s)
    ensures !HasProcess(x, s) ==> StartOutcome(w', s, h, r)
    ensures !r.AlreadyRunning? && (r.Started? <==> CanLaunch(x, s) && h.launches)
  {
  }

  method StartServer(a: Appliance, s: nat, h: Host) returns (r: StartReport)
    requires (a.Valid() || (a.Stored() && RowIdle(a.W(), s))) && s in a.servers
    modifies a
    ensures a.Stored() && (old(a.Valid()) ==> a.Valid()) && s in a.servers
    ensures StartedFrom(a.contents, old(a.W()), old(a.future), s, h, r, a.W())
    ensures s in old(a.W()).servers
    ensures !FoundAlive(a.contents, old(a.W()), s, old(a.future)) && h.launches ==>
              var x := AtLaunch(a.contents, old(a.W()), s, old(a.future));
              (r.Started? <==>
                 && s in x.servers && Live(s) in x.trees
                 && if x.servers[s].settings.jar == "" then "server.jar" in x.trees[Live(s)]
                    else x.servers[s].settings.jar in x.trees[Live(s)])
    ensures StartFrame(old(a.W()), a.W(), s, r)
    ensures LaunchesLast(old(a.log), a.log, s, {Outside, RowKeeping}, r)
    ensures a.signals == old(a.signals)
    ensures old(a.Valid()) ==> StartOutcome(a.W(), s, h, r)
    ensures old(a.Valid()) && !old(HasProcess(a.W(), s)) ==> !r.AlreadyRunning?
  {
    hide Appliance.Valid, Appliance.Stored, StopFrame, StartFrame, Only, EnvFrame, HasProcess, LaunchedIn, StartOutcome,
      FoundAlive, Refreshed, AfterLook, Advance;
    ghost var w, l0 := a.W(), a.log;
    var status := RefreshStatus(a, s);
    StopFrameSettings(w, a.W(), s);
    StoppedStays(w, a.W(), s);
    if status.Running? {
      AlreadyRunningOutcome(w, a.W(), s, h);
      return AlreadyRunning;
    }
    ghost var w1, l1 := a.W(), a.log;
    RowStoppedHasNoProcess(w1, s);
    ghost var x := Advance(a.contents, w1, 0.0, a.future);
    r := LaunchStopped(a, s, h);
    LaunchOutcome(x, s, h, r, a.W());
    StartAfterStop(w, w1, a.W(), s, r);
    LaunchesAfter(l0, l1, a.log, s, {Outside, RowKeeping}, r);
  }

  lemma AlreadyRunningOutcome(w: World, w': World, s: nat, h: Host)
    requires StopFrame(w, w', s)
    ensures StartFrame(w, w', s, AlreadyRunning)
    ensures HasProcess(w', s) ==> StartOutcome(w', s, h, AlreadyRunning)
  {
  }

  /** The rest of a start, for a row found stopped. */
  method LaunchStopped(a: Appliance, s: nat, h: Host) returns (r: StartReport)
    requires (a.Valid() || a.Stored()) && RowIdle(a.W(), s)
    modifies a
    ensures a.Stored() && (old(a.Valid()) ==> a.Valid()) && s in a.servers
    ensures LaunchedIn(Advance(a.contents, old(a.W()), 0.0, old(a.future)), s, h, r, a.W())
    ensures RowIdle(Advance(a.contents, old(a.W()), 0.0, old(a.future)), s)
    ensures !old(HasProcess(a.W(), s)) ==> !HasProcess(Advance(a.contents, old(a.W()), 0.0, old(a.future)), s)
    ensures StartFrame(old(a.W()), a.W(), s, r)
    ensures LaunchesLast(old(a.log), a.log, s, {Outside, RowKeeping}, r) && a.signals == old(a.signals)
  {
    hide Appliance.Valid, Appliance.Stored, StopFrame, Only, HasProcess, Advance, JarOf, CanLaunch;
    ghost var w, l0 := a.W(), a.log;
    a.Elapse(0.0);
    EnvStops(w, a.W(), s);
    StoppedStays(w, a.W(), s);
    ghost var w2, l1 := a.W(), a.log;
    OnlyMore(l0, l1, {Outside}, {Outside, RowKeeping});
    CanLaunchIff(a.W(), s);
    if Live(s) !in a.fs.dirs {
      return NoServerDir;
    }
    assert a.W().trees[Live(s)].Keys == a.fs.dirs[Live(s)].Keys by {
      a.KeysAnyhow(Live(s));
    }
    if JarOf(a.servers[s].settings) !in a.fs.dirs[Live(s)] {
      return NoJar;
    }
    if !h.launches {
      return LaunchFailed;
    }
    var pid := FreshPid(a);
    a.Launch(s, pid);
    LaunchIsFramed(w2, s, pid);
    StartAfterStop(w, w2, a.W(), s, Started(pid));
    LaunchLast(l0, l1, s, pid);
    return Started(pid);
  }

  ghost predicate TwoProcesses(w: World, s: nat) {
    exists p, q :: p != q && IsProcess(w, s, p) && IsProcess(w, s, q)
  }

  /** A start after a crash that fell between a launch and the commit of its pid, with process
      `q` on no row: the server ends up with two processes if and only if `q` is still there at
      the launch and nothing stands in the way of that. */
  method StartAfterCut(a: Appliance, s: nat, q: nat, h: Host) returns (r: StartReport)
    requires a.Stored() && OwnedBut(a.W(), q, s)
    modifies a
    ensures a.Stored()
    ensures s in old(a.W()).servers
    ensures var x := AtLaunch(a.contents, old(a.W()), s, old(a.future));
            TwoProcesses(a.W(), s) <==> IsProcess(x, s, q) && CanLaunch(x, s) && h.launches
    ensures old(a.future) == [] && CanLaunch(old(a.W()), s) && h.launches ==> TwoProcesses(a.W(), s)
  {
    hide Appliance.Stored, StartFrame, LaunchesLast, TwoProcesses, Advance, StartedFrom;
    ghost var w, f0 := a.W(), a.future;
    RefreshedIdle(a.contents, w, s, f0);
    assert f0 == [] ==> AtLaunch(a.contents, w, s, f0) == w by {
      NothingHappens(a.contents, w);
    }
    r := StartServer(a, s, h);
    AfterCut(a.contents, w, f0, s, q, h, r, a.W());
  }

  lemma NothingHappens(c: Contents, w: World)
    ensures Advance(c, w, 0.0, []) == w
  {
    assert w.(now := w.now + 0.0) == w;
  }

  lemma AfterCut(c: Contents, w: World, future: seq<Burst>, s: nat, q: nat, h: Host, r: StartReport, w': World)
    requires OwnedBut(w, q, s) && StartedFrom(c, w, future, s, h, r, w')
    ensures TwoProcesses(w', s) <==>
            IsProcess(AtLaunch(c, w, s, future), s, q) && CanLaunch(AtLaunch(c, w, s, future), s) && h.launches
  {
    hide Advance, CanLaunch;
    RefreshedIdle(c, w, s, future);
    var x := AtLaunch(c, w, s, future);
    AdvanceIsFramed(c, w, 0.0, future);
    assert forall p :: IsProcess(x, s, p) ==> p == q;
    if IsProcess(x, s, q) && CanLaunch(x, s) && h.launches {
      assert IsProcess(w', s, q) && IsProcess(w', s, r.pid) && r.pid != q;
    }
  }

  /** What a row says of a server that has a process is missed by every look if and only if the
      run was cut off between a launch and the commit of its pid.  The rows then say that the
      server is stopped, and whatever relies on them takes it to be. */
  lemma LookMissesIff(w: World, ls: seq<Label>, n: nat)
    requires Owned(w) && Legal(w, ls) && Paired(ls) && n <= |ls|
    ensures (exists s :: HasProcess(Exec(w, ls[..n]), s) && !Alive(Exec(w, ls[..n]), s)) <==> n > 0 && IsSpawn(ls[n - 1])
  {
    PrefixLegal(w, ls, n);
    assert Paired(ls[..n]);
    RunKeepsOwned(w, ls[..n]);
    var x := Exec(w, ls[..n]);
    if n > 0 && IsSpawn(ls[n - 1]) {
      var l := ls[..n][n - 1];
      assert OwnedBut(x, l.on.pid, l.server);
      assert HasProcess(x, l.server) && !Alive(x, l.server);
    }
  }

  /** Then no refresh finds the process: the row is left saying stopped. */
  lemma CutLooksStopped(c: Contents, w: World, s: nat, q: nat, future: seq<Burst>)
    requires OwnedBut(w, q, s)
    ensures HasProcess(w, s) && !FoundAlive(c, w, s, future) && Refreshed(c, w, s, future) == w
  {
    RefreshedIdle(c, w, s, future);
  }

  lemma RowStoppedHasNoProcess(w: World, s: nat)
    ensures RowStopped(w, s) ==> s in w.servers && w.servers[s].pid.None? && !HasProcess(w, s)
  {
  }

  lemma LaunchLast(before: seq<Label>, log: seq<Label>, s: nat, pid: nat)
    requires Only(before, log, {Outside, RowKeeping})
    ensures LaunchesLast(before, log + [OnServer(s, Spawn(pid)), OnServer(s, NoteLaunched(pid))], s,
                         {Outside, RowKeeping}, Started(pid))
  {
    var after := log + [OnServer(s, Spawn(pid)), OnServer(s, NoteLaunched(pid))];
    assert after[..|after| - 2] == log;
  }

  // ----- Stopping ------------------------------------------------------------------

  datatype Rung = ViaRcon | ViaStdin | ViaSigterm
  datatype Attempt = Disabled | Unreachable | StillAlive | Exited | AlreadyGone
  datatype StopReport = NotRunning | StoppedBy(rung: Rung, tried: seq<Attempt>) | CouldNotStop(tried: seq<Attempt>)

  predicate Succeeded(o: Attempt) {
    o.Exited? || o.AlreadyGone?
  }

  function RecordedAs(rung: Rung): StopMethod {
    match rung
    case ViaRcon => ByRcon
    case ViaStdin => ByStdin
    case ViaSigterm => BySigterm
  }

  /** What each rung can come to, given what the host answers. */
  ghost predicate RconAttempt(rconEnabled: bool, h: Host, o: Attempt) {
    if !rconEnabled then o.Disabled?
    else if !WentOut(h.save, h.stop) then o.Unreachable?
    else o.Exited? || o.StillAlive?
  }

  predicate StdinAttempt(h: Host, o: Attempt) {
    if !h.stdinWritten then o.Unreachable? else o.Exited? || o.StillAlive?
  }

  predicate SigtermAttempt(h: Host, o: Attempt) {
    match h.killAnswer
    case Delivered => o.Exited? || o.StillAlive?
    case NotPermitted => o.Unreachable?
    case NoSuchProcess => o.AlreadyGone? || o.Exited? || o.StillAlive?
  }

  /** The rungs are tried in order and only until one works; the one named is that one. */
  ghost predicate Ladder(rconEnabled: bool, h: Host, r: StopReport) {
    match r
    case NotRunning => true
    case StoppedBy(ViaRcon, t) => |t| == 1 && RconAttempt(rconEnabled, h, t[0]) && Succeeded(t[0])
    case StoppedBy(ViaStdin, t) =>
      && |t| == 2 && RconAttempt(rconEnabled, h, t[0]) && StdinAttempt(h, t[1])
      && !Succeeded(t[0]) && Succeeded(t[1])
    case StoppedBy(ViaSigterm, t) =>
      && |t| == 3 && RconAttempt(rconEnabled, h, t[0]) && StdinAttempt(h, t[1]) && SigtermAttempt(h, t[2])
      && !Succeeded(t[0]) && !Succeeded(t[1]) && Succeeded(t[2])
    case CouldNotStop(t) =>
      && |t| == 3 && RconAttempt(rconEnabled, h, t[0]) && StdinAttempt(h, t[1]) && SigtermAttempt(h, t[2])
      && !Succeeded(t[0]) && !Succeeded(t[1]) && !Succeeded(t[2])
  }

  function WaitOf(o: Attempt, timeout: nat): real {
    if o.StillAlive? then timeout as real else 0.0
  }

  /** How long the rungs that found the process still alive have waited for it. */
  function Waited(t: seq<Attempt>): real {
    (if |t| > 0 then WaitOf(t[0], 30) else 0.0)
    + (if |t| > 1 then WaitOf(t[1], 30) else 0.0)
    + (if |t| > 2 then WaitOf(t[2], 10) else 0.0)
  }

  /** The signals of a stop: one SIGTERM to the recorded pid if the last rung sent it. */
  function TermsOf(pid: Option<nat>, r: StopReport): seq<Sent> {
    if !r.NotRunning? && |r.tried| == 3 && (r.tried[2].Exited? || r.tried[2].StillAlive?) && pid.Some?
    then [Sent(pid.value, Term)] else []
  }

  /** How a stop got from `w` to `w'`: down the ladder, with no signal but that of the last
      rung, and not before each rung that failed to end the process had its time. */
  ghost predicate ByLadder(w: World, w': World, s: nat, h: Host, r: StopReport) {
    && s in w.servers && Ladder(w.servers[s].settings.rconEnabled, h, r)
    && w'.signals == w.signals + TermsOf(w.servers[s].pid, r)
    && (!r.NotRunning? ==> w'.now >= w.now + Waited(r.tried))
  }

  lemma LadderWithin(w0: World, w: World, w': World, w1: World, s: nat, h: Host, r: StopReport)
    requires ByLadder(w, w', s, h, r) && s in w0.servers
    requires w0.servers[s].settings == w.servers[s].settings && w0.servers[s].pid == w.servers[s].pid
    requires w0.signals == w.signals && w'.signals == w1.signals && w0.now <= w.now && w'.now <= w1.now
    ensures ByLadder(w0, w1, s, h, r)
  {
  }

  /** No SIGTERM between the two histories before time `t`. */
  ghost predicate TermsAfter(start: World, before: seq<Label>, after: seq<Label>, t: real) {
    forall i :: |before| <= i < |after| && SortOf(after[i]).Terming? ==> Exec(start, after[..i]).now >= t
  }

  lemma NoTerms(start: World, before: seq<Label>, after: seq<Label>, sorts: set<Sort>, t: real)
    requires Only(before, after, sorts) && Terming !in sorts
    ensures TermsAfter(start, before, after, t)
  {
  }

  lemma TermsTransitive(start: World, a: seq<Label>, b: seq<Label>, c: seq<Label>, t: real, u: real)
    requires |a| <= |b| && b <= c && TermsAfter(start, a, b, t) && TermsAfter(start, b, c, u) && t <= u
    ensures TermsAfter(start, a, c, t)
  {
    forall i | |a| <= i < |c| && SortOf(c[i]).Terming? ensures Exec(start, c[..i]).now >= t {
      if i < |b| {
        assert c[..i] == b[..i] && c[i] == b[i];
      }
    }
  }

  lemma TermNow(start: World, before: seq<Label>, log: seq<Label>, l: Label, t: real)
    requires Only(before, log, {Outside}) && Exec(start, log).now >= t
    ensures TermsAfter(start, before, log, t) && TermsAfter(start, before, log + [l], t)
  {
    forall i | |before| <= i < |log + [l]| && SortOf((log + [l])[i]).Terming?
      ensures Exec(start, (log + [l])[..i]).now >= t
    {
      assert (log + [l])[..|log|] == log;
    }
  }

  /** Before `after` the server still had its process at time `t` or later. */
  ghost predicate AliveAt(start: World, before: seq<Label>, after: seq<Label>, s: nat, t: real) {
    exists n :: |before| <= n <= |after| && HasProcess(Exec(start, after[..n]), s) && Exec(start, after[..n]).now >= t
  }

  /** Each rung that is said to have failed to end the process did fail: the process was still
      there once that rung had had its time. */
  ghost predicate EachFailed(start: World, before: seq<Label>, after: seq<Label>, s: nat, begun: real, tried: seq<Attempt>) {
    forall i :: 0 <= i < |tried| && tried[i].StillAlive? ==> AliveAt(start, before, after, s, begun + Waited(tried[..i + 1]))
  }

  lemma AliveLater(start: World, before: seq<Label>, mid: seq<Label>, after: seq<Label>, s: nat, t: real)
    requires AliveAt(start, before, mid, s, t) && mid <= after
    ensures AliveAt(start, before, after, s, t)
  {
    var n :| |before| <= n <= |mid| && HasProcess(Exec(start, mid[..n]), s) && Exec(start, mid[..n]).now >= t;
    assert after[..n] == mid[..n];
  }

  lemma AliveNow(start: World, before: seq<Label>, log: seq<Label>, s: nat, t: real)
    requires before <= log && HasProcess(Exec(start, log), s) && Exec(start, log).now >= t
    ensures AliveAt(start, before, log, s, t)
  {
    assert log[..|log|] == log;
  }

  /** One more rung: it was tried between `mid` and `after`. */
  lemma FailedMore(start: World, before: seq<Label>, mid: seq<Label>, after: seq<Label>, s: nat, begun: real,
                   tried: seq<Attempt>, o: Attempt, b: set<Sort>, m: set<Sort>)
    requires EachFailed(start, before, mid, s, begun, tried) && Only(before, mid, b) && Only(mid, after, m)
    requires o.StillAlive? ==> HasProcess(Exec(start, after), s) && Exec(start, after).now >= begun + Waited(tried + [o])
    ensures EachFailed(start, before, after, s, begun, tried + [o])
  {
    hide AliveAt, Waited;
    forall i | 0 <= i < |tried + [o]| && (tried + [o])[i].StillAlive?
      ensures AliveAt(start, before, after, s, begun + Waited((tried + [o])[..i + 1]))
    {
      if i < |tried| {
        assert (tried + [o])[..i + 1] == tried[..i + 1];
        AliveLater(start, before, mid, after, s, begun + Waited(tried[..i + 1]));
      } else {
        assert (tried + [o])[..i + 1] == tried + [o];
        AliveNow(start, before, after, s, begun + Waited(tried + [o]));
      }
    }
  }

  lemma NoneFailed(start: World, log: seq<Label>, s: nat, begun: real)
    ensures EachFailed(start, log, log, s, begun, [])
  {
  }

  // What each rung comes to: an attempt, and the moment at which it is over.

  datatype RungEnd = RungEnd(o: Attempt, at: Moment)
  datatype Delivery = Delivery(k: KillResult, at: Moment)
  datatype StopEnd = StopEnd(report: StopReport, at: Moment)

  /** A wait for the process to go, and the commit of the stop if it does. */
  ghost function Awaited(c: Contents, w: World, s: nat, pid: nat, timeout: nat, how: StopMethod, future: seq<Burst>): RungEnd {
    var m := LastLook(c, w, s, pid, w.now + timeout as real, future);
    if IsProcess(m.world, s, pid) then RungEnd(StillAlive, m)
    else RungEnd(Exited, Moment(Apply(m.world, OnServer(s, NoteStopped(Some(how)))), m.future))
  }

  ghost function AfterRcon(c: Contents, w: World, s: nat, pid: nat, h: Host, future: seq<Burst>): RungEnd
    requires s in w.servers
  {
    if !w.servers[s].settings.rconEnabled then RungEnd(Disabled, Moment(w, future))
    else if !WentOut(h.save, h.stop) then RungEnd(Unreachable, Moment(Advance(c, w, 0.0, future), Later(future)))
    else Awaited(c, Advance(c, w, 0.0, future), s, pid, 30, ByRcon, Later(future))
  }

  ghost function AfterStdin(c: Contents, w: World, s: nat, pid: nat, h: Host, future: seq<Burst>): RungEnd {
    if !h.stdinWritten then RungEnd(Unreachable, Moment(Advance(c, w, 0.0, future), Later(future)))
    else Awaited(c, Advance(c, w, 0.0, future), s, pid, 30, ByStdin, Later(future))
  }

  ghost function AfterKill(c: Contents, w: World, s: nat, pid: nat, signal: Signal, answer: KillResult, future: seq<Burst>)
    : Delivery
  {
    var w1 := Advance(c, w, 0.0, future);
    var k := if answer.NoSuchProcess? && pid in w1.procs then Delivered else answer;
    Delivery(k, Moment(if k.Delivered? then Apply(w1, OnServer(s, Signalled(pid, signal))) else w1, Later(future)))
  }

  ghost function AfterSigterm(c: Contents, w: World, s: nat, pid: nat, h: Host, future: seq<Burst>): RungEnd {
    var d := AfterKill(c, w, s, pid, Term, h.killAnswer, future);
    match d.k
    case NoSuchProcess =>
      RungEnd(AlreadyGone, Moment(Apply(d.at.world, OnServer(s, NoteStopped(Some(BySigterm)))), d.at.future))
    case NotPermitted => RungEnd(Unreachable, d.at)
    case Delivered => Awaited(c, d.at.world, s, pid, 10, BySigterm, d.at.future)
  }

  /** The last rung: when it fails too, the stop has failed. */
  ghost function AfterLast(c: Contents, w: World, s: nat, pid: nat, h: Host, future: seq<Burst>): RungEnd {
    var e := AfterSigterm(c, w, s, pid, h, future);
    if Succeeded(e.o) then e
    else RungEnd(e.o, Moment(Apply(e.at.world, OnServer(s, NoteStopFailed)), e.at.future))
  }

  /** The rungs in their order, each from where the one before it ended, until one works. */
  ghost function RungsFrom(c: Contents, w: World, s: nat, pid: nat, h: Host, future: seq<Burst>): StopEnd
    requires s in w.servers
  {
    var e1 := AfterRcon(c, w, s, pid, h, future);
    if Succeeded(e1.o) then StopEnd(StoppedBy(ViaRcon, [e1.o]), e1.at) else
    var e2 := AfterStdin(c, e1.at.world, s, pid, h, e1.at.future);
    if Succeeded(e2.o) then StopEnd(StoppedBy(ViaStdin, [e1.o, e2.o]), e2.at) else
    var e3, t := AfterLast(c, e2.at.world, s, pid, h, e2.at.future), [e1.o, e2.o];
    StopEnd(if Succeeded(e3.o) then StoppedBy(ViaSigterm, t + [e3.o]) else CouldNotStop(t + [e3.o]), e3.at)
  }

  /** What a stop comes to. */
  ghost function StoppedFrom(c: Contents, w: World, s: nat, h: Host, future: seq<Burst>): StopEnd
    requires s in w.servers
  {
    var at := Moment(Refreshed(c, w, s, future), AfterLook(w, s, future));
    if !FoundAlive(c, w, s, future) then StopEnd(NotRunning, at)
    else RungsFrom(c, at.world, s, w.servers[s].pid.value, h, at.future)
  }

  /** Wait for the process to go and, if it does, record the stop. */
  method AwaitStop(a: Appliance, s: nat, pid: nat, timeout: nat, how: StopMethod) returns (exited: bool)
    requires a.Valid() && s in a.servers && a.servers[s].pid == Some(pid)
    modifies a
    ensures a.Valid() && s in a.servers && StopFrame(old(a.W()), a.W(), s) && Only(old(a.log), a.log, {Outside, RowKeeping})
    ensures a.signals == old(a.signals)
    ensures if exited then RowStopped(a.W(), s) && a.servers[s].lastStop == Some(how)
            else a.servers[s] == old(a.servers[s])
    ensures a.now >= old(a.now) + if exited then 0.0 else timeout as real
    ensures !exited ==> HasProcess(a.W(), s)
    ensures RungEnd(if exited then Exited else StillAlive, Moment(a.W(), a.future))
         == Awaited(a.contents, old(a.W()), s, pid, timeout, how, old(a.future))
  {
    hide Appliance.Valid, Appliance.Stored, StopFrame, EnvFrame, Advance, LastLook, Passes;
    ghost var w := a.W();
    var looks;
    exited, looks := WaitForExit(a, s, pid, timeout);
    EnvStops(w, a.W(), s);
    a.Recorded(s);
    if exited {
      ghost var w1 := a.W();
      a.MarkStopped(s, Some(how));
      NoteStops(w1, s, NoteStopped(Some(how)));
      StopFrameTransitive(w, w1, a.W(), s);
    }
  }

  /** Save and stop over RCON, where it is enabled. */
  method StopViaRcon(a: Appliance, s: nat, pid: nat, h: Host) returns (o: Attempt)
    requires a.Valid() && s in a.servers && a.servers[s].pid == Some(pid)
    modifies a
    ensures a.Valid() && s in a.servers && StopFrame(old(a.W()), a.W(), s) && Only(old(a.log), a.log, {Outside, RowKeeping})
    ensures a.signals == old(a.signals)
    ensures RconAttempt(old(a.servers[s].settings.rconEnabled), h, o) && !o.AlreadyGone?
    ensures o.Disabled? <==> !old(a.servers[s].settings.rconEnabled)
    ensures !o.Disabled? ==>
              (o.Exited? || o.StillAlive? <==>
                 h.save.Answered? && (h.stop.Answered? || Mentions(h.stop.message, "connection")
                                                       || Mentions(h.stop.message, "timed out")))
    ensures if o.Exited? then RowStopped(a.W(), s) && a.servers[s].lastStop == Some(ByRcon)
            else a.servers[s] == old(a.servers[s])
    ensures a.now >= old(a.now) + WaitOf(o, 30)
    ensures o.StillAlive? ==> HasProcess(a.W(), s)
    ensures RungEnd(o, Moment(a.W(), a.future)) == AfterRcon(a.contents, old(a.W()), s, pid, h, old(a.future))
  {
    hide Appliance.Valid, Appliance.Stored, StopFrame, EnvFrame, Advance, Awaited, Passes, Mentions, StopIssued;
    ghost var w := a.W();
    EnvFrameReflexive(w);
    EnvStops(w, w, s);
    if !a.servers[s].settings.rconEnabled {
      return Disabled;
    }
    a.Elapse(0.0);
    EnvStops(w, a.W(), s);
    StopIssuedIff(h.save, h.stop);
    if !StopIssued(h.save, h.stop) {
      return Unreachable;
    }
    ghost var w1 := a.W();
    var exited := AwaitStop(a, s, pid, RCON_STOP_TIMEOUT, ByRcon);
    StopFrameTransitive(w, w1, a.W(), s);
    return if exited then Exited else StillAlive;
  }

  method StopViaStdin(a: Appliance, s: nat, pid: nat, h: Host) returns (o: Attempt)
    requires a.Valid() && s in a.servers && a.servers[s].pid == Some(pid)
    modifies a
    ensures a.Valid() && s in a.servers && StopFrame(old(a.W()), a.W(), s) && Only(old(a.log), a.log, {Outside, RowKeeping})
    ensures a.signals == old(a.signals)
    ensures StdinAttempt(h, o) && !o.AlreadyGone?
    ensures if o.Exited? then RowStopped(a.W(), s) && a.servers[s].lastStop == Some(ByStdin)
            else a.servers[s] == old(a.servers[s])
    ensures a.now >= old(a.now) + WaitOf(o, 30)
    ensures o.StillAlive? ==> HasProcess(a.W(), s)
    ensures RungEnd(o, Moment(a.W(), a.future)) == AfterStdin(a.contents, old(a.W()), s, pid, h, old(a.future))
  {
    hide Appliance.Valid, Appliance.Stored, StopFrame, EnvFrame, Advance, Awaited, Passes;
    ghost var w := a.W();
    a.Elapse(0.0);
    EnvStops(w, a.W(), s);
    if !h.stdinWritten {
      return Unreachable;
    }
    ghost var w1 := a.W();
    var exited := AwaitStop(a, s, pid, STDIN_STOP_TIMEOUT, ByStdin);
    StopFrameTransitive(w, w1, a.W(), s);
    return if exited then Exited else StillAlive;
  }

  /** kill(2).  It reports no such process only when there is none. */
  method SendKill(a: Appliance, s: nat, pid: nat, signal: Signal, answer: KillResult) returns (k: KillResult)
    requires a.Valid() && s in a.servers && a.servers[s].pid == Some(pid)
    modifies a
    ensures a.Valid() && s in a.servers && StopFrame(old(a.W()), a.W(), s) && a.servers == old(a.servers)
    ensures Only(old(a.log), a.log, {Outside, if signal.Kill? then Killing else Terming})
    ensures k.NoSuchProcess? ==> !HasProcess(a.W(), s)
    ensures k == answer || (answer.NoSuchProcess? && k.Delivered? && pid in a.procs)
    ensures a.now >= old(a.now) && TermsAfter(a.start, old(a.log), a.log, old(a.now))
    ensures a.signals == old(a.signals) + if k.Delivered? then [Sent(pid, signal)] else []
    ensures Delivery(k, Moment(a.W(), a.future)) == AfterKill(a.contents, old(a.W()), s, pid, signal, answer, old(a.future))
  {
    hide Appliance.Valid, Appliance.Stored, StopFrame, EnvFrame, Advance, TermsAfter, Passes;
    ghost var w := a.W();
    a.Elapse(0.0);
    a.HistorySoFar();
    TermNow(a.start, old(a.log), a.log, OnServer(s, Signalled(pid, signal)), w.now);
    EnvStops(w, a.W(), s);
    a.Recorded(s);
    k := answer;
    if k.NoSuchProcess? && pid in a.procs {
      k := Delivered;
    }
    if k.Delivered? {
      ghost var w1 := a.W();
      a.SendSignal(s, pid, signal);
      NoteStops(w1, s, Signalled(pid, signal));
      StopFrameTransitive(w, w1, a.W(), s);
    }
  }

  method StopViaSigterm(a: Appliance, s: nat, pid: nat, h: Host) returns (o: Attempt)
    requires a.Valid() && s in a.servers && a.servers[s].pid == Some(pid)
    modifies a
    ensures a.Valid() && s in a.servers && StopFrame(old(a.W()), a.W(), s) && Only(old(a.log), a.log, {Outside, RowKeeping, Terming})
    ensures a.signals == old(a.signals) + if o.Exited? || o.StillAlive? then [Sent(pid, Term)] else []
    ensures SigtermAttempt(h, o)
    ensures a.now >= old(a.now) + WaitOf(o, 10) && TermsAfter(a.start, old(a.log), a.log, old(a.now))
    ensures o.StillAlive? ==> HasProcess(a.W(), s)
    ensures if Succeeded(o) then RowStopped(a.W(), s) && a.servers[s].lastStop == Some(BySigterm)
            else a.servers[s] == old(a.servers[s])
    ensures RungEnd(o, Moment(a.W(), a.future)) == AfterSigterm(a.contents, old(a.W()), s, pid, h, old(a.future))
  {
    hide Appliance.Valid, Appliance.Stored, StopFrame, EnvFrame, Advance, TermsAfter, AfterKill, Awaited;
    ghost var w := a.W();
    var k := SendKill(a, s, pid, Term, h.killAnswer);
    ghost var w1, l1 := a.W(), a.log;
    if k.NoSuchProcess? {
      a.MarkStopped(s, Some(BySigterm));
      NoTerms(a.start, l1, a.log, {RowKeeping}, w.now);
      TermsTransitive(a.start, old(a.log), l1, a.log, w.now, w.now);
      NoteStops(w1, s, NoteStopped(Some(BySigterm)));
      StopFrameTransitive(w, w1, a.W(), s);
      return AlreadyGone;
    }
    if k.NotPermitted? {
      return Unreachable;
    }
    var exited := AwaitStop(a, s, pid, STOP_TIMEOUT, BySigterm);
    StopFrameTransitive(w, w1, a.W(), s);
    NoTerms(a.start, l1, a.log, {Outside, RowKeeping}, w.now);
    TermsTransitive(a.start, old(a.log), l1, a.log, w.now, w.now);
    return if exited then Exited else StillAlive;
  }

  /** Two rungs without a signal, and then the last. */
  lemma LastRung(start: World, log: seq<Label>, l3: seq<Label>, after: seq<Label>, t: real, u: real)
    requires Only(log, l3, {Outside, RowKeeping}) && Only(l3, after, {Outside, RowKeeping, Terming})
    requires TermsAfter(start, l3, after, u) && t <= u
    ensures TermsAfter(start, log, after, t)
  {
    hide TermsAfter;
    NoTerms(start, log, l3, {Outside, RowKeeping}, t);
    TermsTransitive(start, log, l3, after, t, u);
  }

  lemma AfterLastRung(start: World, log: seq<Label>, l4: seq<Label>, l: Label, t: real)
    requires Only(log, l4, {Outside, RowKeeping, Terming}) && TermsAfter(start, log, l4, t) && !SortOf(l).Terming?
    ensures TermsAfter(start, log, l4 + [l], t)
  {
    hide TermsAfter;
    assert Only(l4, l4 + [l], {SortOf(l)});
    NoTerms(start, l4, l4 + [l], {SortOf(l)}, t);
    TermsTransitive(start, log, l4, l4 + [l], t, t);
  }

  lemma SucceededIff(o: Attempt)
    ensures Succeeded(o) <==> o.Exited? || o.AlreadyGone?
  {
  }

  /** What the rungs tried and found makes a way down the ladder. */
  lemma ByRungs(w: World, w': World, s: nat, h: Host, t: seq<Attempt>)
    requires s in w.servers && 1 <= |t| <= 3 && w'.now >= w.now + Waited(t)
    requires RconAttempt(w.servers[s].settings.rconEnabled, h, t[0])
    requires |t| >= 2 ==> !Succeeded(t[0]) && StdinAttempt(h, t[1])
    requires |t| == 3 ==> !Succeeded(t[1]) && SigtermAttempt(h, t[2])
    ensures w'.signals == w.signals && |t| == 1 && Succeeded(t[0]) ==> ByLadder(w, w', s, h, StoppedBy(ViaRcon, t))
    ensures w'.signals == w.signals && |t| == 2 && Succeeded(t[1]) ==> ByLadder(w, w', s, h, StoppedBy(ViaStdin, t))
    ensures |t| == 3 && w.servers[s].pid.Some?
            && w'.signals == w.signals + (if t[2].Exited? || t[2].StillAlive? then [Sent(w.servers[s].pid.value, Term)] else []) ==>
              ByLadder(w, w', s, h, if Succeeded(t[2]) then StoppedBy(ViaSigterm, t) else CouldNotStop(t))
  {
    hide RconAttempt, StdinAttempt, SigtermAttempt, Waited, Succeeded;
  }

  lemma WaitedMore(t: seq<Attempt>, o: Attempt)
    ensures t == [] ==> Waited(t) == 0.0 && Waited(t + [o]) == WaitOf(o, 30)
    ensures |t| == 1 ==> Waited(t + [o]) == Waited(t) + WaitOf(o, 30)
    ensures |t| == 2 ==> Waited(t + [o]) == Waited(t) + WaitOf(o, 10)
  {
    hide WaitOf;
  }

  lemma RungsMean(c: Contents, w: World, s: nat, pid: nat, h: Host, future: seq<Burst>, e1: RungEnd, e2: RungEnd, e3: RungEnd)
    requires s in w.servers && e1 == AfterRcon(c, w, s, pid, h, future)
    ensures Succeeded(e1.o) ==> RungsFrom(c, w, s, pid, h, future) == StopEnd(StoppedBy(ViaRcon, [e1.o]), e1.at)
    ensures !Succeeded(e1.o) && e2 == AfterStdin(c, e1.at.world, s, pid, h, e1.at.future) ==>
              && (Succeeded(e2.o) ==>
                    RungsFrom(c, w, s, pid, h, future) == StopEnd(StoppedBy(ViaStdin, [e1.o, e2.o]), e2.at))
              && (!Succeeded(e2.o) && e3 == AfterLast(c, e2.at.world, s, pid, h, e2.at.future) ==>
                    var t := [e1.o, e2.o] + [e3.o];
                    RungsFrom(c, w, s, pid, h, future)
                    == StopEnd(if Succeeded(e3.o) then StoppedBy(ViaSigterm, t) else CouldNotStop(t), e3.at))
  {
    hide AfterRcon, AfterStdin, AfterLast, Succeeded;
  }

  lemma FailureNoted(w: World, s: nat)
    requires s in w.servers
    ensures ServerEnabled(w, s, NoteStopFailed)
    ensures var w' := ApplyServer(w, s, NoteStopFailed);
            && w' == Apply(w, OnServer(s, NoteStopFailed)) && StopFrame(w, w', s)
            && w'.now == w.now && w'.signals == w.signals && w'.procs == w.procs
            && w'.servers == w.servers[s := w.servers[s].(lastStop := Some(StopFailed))]
  {
  }

  lemma SameProcesses(w: World, w': World, s: nat)
    requires w'.procs == w.procs
    ensures HasProcess(w', s) <==> HasProcess(w, s)
  {
  }

  lemma FailureIsQuiet(s: nat)
    ensures SortOf(OnServer(s, NoteStopFailed)).RowKeeping?
  {
  }

  /** The last rung, and the record of the failure if it fails too. */
  method TryLast(a: Appliance, s: nat, pid: nat, h: Host) returns (o: Attempt)
    requires a.Valid() && s in a.servers && a.servers[s].pid == Some(pid)
    modifies a
    ensures a.Valid() && s in a.servers && StopFrame(old(a.W()), a.W(), s) && Only(old(a.log), a.log, {Outside, RowKeeping, Terming})
    ensures RungEnd(o, Moment(a.W(), a.future)) == AfterLast(a.contents, old(a.W()), s, pid, h, old(a.future))
    ensures SigtermAttempt(h, o)
    ensures a.signals == old(a.signals) + if o.Exited? || o.StillAlive? then [Sent(pid, Term)] else []
    ensures a.now >= old(a.now) + WaitOf(o, 10) && TermsAfter(a.start, old(a.log), a.log, old(a.now))
    ensures o.StillAlive? ==> HasProcess(a.W(), s)
    ensures if Succeeded(o) then RowStopped(a.W(), s) && a.servers[s].lastStop == Some(BySigterm)
            else a.servers[s] == old(a.servers[s]).(lastStop := Some(StopFailed))
  {
    hide *;
    ghost var all: set<Sort> := {Outside, RowKeeping, Terming};
    ghost var w, log := a.W(), a.log;
    a.Shown();
    o := StopViaSigterm(a, s, pid, h);
    SucceededIff(o);
    LastMeans(a.contents, w, s, pid, h, old(a.future), RungEnd(o, Moment(a.W(), a.future)));
    if !(o.Exited? || o.AlreadyGone?) {
      ghost var w1, l1 := a.W(), a.log;
      a.Shown();
      FailureNoted(w1, s);
      FailureIsQuiet(s);
      a.MarkStopFailed(s);
      a.Shown();
      SameProcesses(w1, a.W(), s);
      StopFrameTransitive(w, w1, a.W(), s);
      OneMore(log, l1, OnServer(s, NoteStopFailed), all);
      AfterLastRung(a.start, log, l1, OnServer(s, NoteStopFailed), w.now);
    }
  }

  lemma LastMeans(c: Contents, w: World, s: nat, pid: nat, h: Host, future: seq<Burst>, e: RungEnd)
    requires e == AfterSigterm(c, w, s, pid, h, future)
    ensures AfterLast(c, w, s, pid, h, future)
         == if Succeeded(e.o) then e
            else RungEnd(e.o, Moment(Apply(e.at.world, OnServer(s, NoteStopFailed)), e.at.future))
  {
    hide AfterSigterm, Apply, Succeeded;
  }

  /** The rungs, for a row found running.  A rung is recorded only when each one before it was
      not to be had or left the process alive after its whole time. */
  method TryRungs(a: Appliance, s: nat, pid: nat, h: Host) returns (r: StopReport)
    requires a.Valid() && s in a.servers && a.servers[s].pid == Some(pid) && a.servers[s].status.Running?
    modifies a
    ensures a.Valid() && s in a.servers && StopFrame(old(a.W()), a.W(), s) && Only(old(a.log), a.log, {Outside, RowKeeping, Terming})
    ensures s in old(a.W()).servers
    ensures StopEnd(r, Moment(a.W(), a.future)) == RungsFrom(a.contents, old(a.W()), s, pid, h, old(a.future))
    ensures !r.NotRunning? && ByLadder(old(a.W()), a.W(), s, h, r)
    ensures EachFailed(a.start, old(a.log), a.log, s, old(a.now), r.tried)
    ensures |r.tried| == 3 ==> TermsAfter(a.start, old(a.log), a.log, old(a.now) + Waited(r.tried[..2]))
    ensures r.StoppedBy? ==> RowStopped(a.W(), s) && a.servers[s].lastStop == Some(RecordedAs(r.rung))
    ensures r.CouldNotStop? ==> a.servers[s] == old(a.servers[s]).(lastStop := Some(StopFailed))
  {
    hide *;
    ghost var quiet: set<Sort> := {Outside, RowKeeping};
    ghost var all: set<Sort> := {Outside, RowKeeping, Terming};
    ghost var w, log, f0 := a.W(), a.log, a.future;
    a.Shown();
    NoneYet(log, quiet);
    a.HistorySoFar();
    NoneFailed(a.start, log, s, w.now);
    WaitedMore([], Exited);

    var o1 := StopViaRcon(a, s, pid, h);
    ghost var e1 := RungEnd(o1, Moment(a.W(), a.future));
    RungDone(a, log, log, w, s, [], o1, quiet, quiet);
    assert [] + [o1] == [o1];
    SucceededIff(o1);
    RungsMean(a.contents, w, s, pid, h, f0, e1, e1, e1);
    if o1.Exited? {
      OnlyMore(log, a.log, quiet, all);
      ByRungs(w, a.W(), s, h, [o1]);
      Recorded();
      return StoppedBy(ViaRcon, [o1]);
    }
    r := TryOthers(a, s, pid, h, o1, w, log, f0);
  }

  /** The console, and then SIGTERM, after RCON came to `o1`. */
  method TryOthers(a: Appliance, s: nat, pid: nat, h: Host, o1: Attempt, ghost w: World, ghost log: seq<Label>, ghost f0: seq<Burst>)
    returns (r: StopReport)
    requires a.Valid() && s in a.servers && a.servers[s].pid == Some(pid) && a.servers[s].status.Running?
    requires StopFrame(w, a.W(), s) && Only(log, a.log, {Outside, RowKeeping}) && s in w.servers && w.servers[s] == a.servers[s]
    requires RungEnd(o1, Moment(a.W(), a.future)) == AfterRcon(a.contents, w, s, pid, h, f0) && !Succeeded(o1)
    requires RconAttempt(w.servers[s].settings.rconEnabled, h, o1) && a.W().signals == w.signals
    requires EachFailed(a.start, log, a.log, s, w.now, [o1]) && a.now >= w.now + Waited([o1])
    modifies a
    ensures a.Valid() && s in a.servers && StopFrame(w, a.W(), s) && Only(log, a.log, {Outside, RowKeeping, Terming})
    ensures StopEnd(r, Moment(a.W(), a.future)) == RungsFrom(a.contents, w, s, pid, h, f0)
    ensures !r.NotRunning? && ByLadder(w, a.W(), s, h, r)
    ensures EachFailed(a.start, log, a.log, s, w.now, r.tried)
    ensures |r.tried| == 3 ==> TermsAfter(a.start, log, a.log, w.now + Waited(r.tried[..2]))
    ensures r.StoppedBy? ==> RowStopped(a.W(), s) && a.servers[s].lastStop == Some(RecordedAs(r.rung))
    ensures r.CouldNotStop? ==> a.servers[s] == w.servers[s].(lastStop := Some(StopFailed))
  {
    hide *;
    ghost var quiet: set<Sort> := {Outside, RowKeeping};
    ghost var all: set<Sort> := {Outside, RowKeeping, Terming};
    ghost var e1 := RungEnd(o1, Moment(a.W(), a.future));
    a.Shown();
    a.HistorySoFar();
    ghost var w2, l2 := a.W(), a.log;
    var o2 := StopViaStdin(a, s, pid, h);
    ghost var e2 := RungEnd(o2, Moment(a.W(), a.future));
    StopFrameTransitive(w, w2, a.W(), s);
    OnlyTransitive(log, l2, a.log, quiet, quiet, quiet);
    RungDone(a, log, l2, w, s, [o1], o2, quiet, quiet);
    SucceededIff(o2);
    RungsMean(a.contents, w, s, pid, h, f0, e1, e2, e2);
    assert [o1] + [o2] == [o1, o2];
    if o2.Exited? {
      OnlyMore(log, a.log, quiet, all);
      ByRungs(w, a.W(), s, h, [o1, o2]);
      Recorded();
      return StoppedBy(ViaStdin, [o1, o2]);
    }

    ghost var w3, l3 := a.W(), a.log;
    var o3 := TryLast(a, s, pid, h);
    StopFrameTransitive(w, w3, a.W(), s);
    OnlyTransitive(log, l3, a.log, quiet, all, all);
    RungDone(a, log, l3, w, s, [o1, o2], o3, quiet, all);
    SucceededIff(o3);
    RungsMean(a.contents, w, s, pid, h, f0, e1, e2, RungEnd(o3, Moment(a.W(), a.future)));
    assert [o1, o2] + [o3] == [o1, o2, o3] && [o1, o2, o3][..2] == [o1, o2];
    LastRung(a.start, log, l3, a.log, w.now + Waited([o1, o2]), w3.now);
    ByRungs(w, a.W(), s, h, [o1, o2, o3]);
    Recorded();
    return if o3.Exited? || o3.AlreadyGone? then StoppedBy(ViaSigterm, [o1, o2, o3]) else CouldNotStop([o1, o2, o3]);
  }

  lemma Recorded()
    ensures RecordedAs(ViaRcon) == ByRcon && RecordedAs(ViaStdin) == ByStdin && RecordedAs(ViaSigterm) == BySigterm
  {
  }

  /** One rung is over: the clock, and what is known of the rungs so far. */
  lemma RungDone(a: Appliance, log: seq<Label>, mid: seq<Label>, w: World, s: nat, tried: seq<Attempt>, o: Attempt,
                 b: set<Sort>, m: set<Sort>)
    requires a.Valid() && Only(log, mid, b) && Only(mid, a.log, m) && |tried| <= 2
    requires EachFailed(a.start, log, mid, s, w.now, tried)
    requires Exec(a.start, mid).now >= w.now + Waited(tried)
    requires a.now >= Exec(a.start, mid).now + WaitOf(o, [30, 30, 10][|tried|])
    requires o.StillAlive? ==> HasProcess(a.W(), s)
    ensures EachFailed(a.start, log, a.log, s, w.now, tried + [o])
    ensures a.W().servers == a.servers && a.W().now == a.now && a.W().signals == a.signals && Exec(a.start, a.log) == a.W()
    ensures a.now >= w.now + Waited(tried + [o])
  {
    hide *;
    a.Shown();
    a.HistorySoFar();
    WaitedMore(tried, o);
    FailedMore(a.start, log, mid, a.log, s, w.now, tried, o, b, m);
  }

  /** The gentlest method that works, for a server found running.  The report is a success
      exactly when the row says stopped, and a failure leaves pid and status as they were. */
  method StopServer(a: Appliance, s: nat, h: Host) returns (r: StopReport)
    requires a.Valid() && s in a.servers
    modifies a
    ensures a.Valid() && s in a.servers && StopFrame(old(a.W()), a.W(), s) && Only(old(a.log), a.log, {Outside, RowKeeping, Terming})
    ensures StopEnd(r, Moment(a.W(), a.future)) == StoppedFrom(a.contents, old(a.W()), s, h, old(a.future))
    ensures r.NotRunning? <==> !FoundAlive(a.contents, old(a.W()), s, old(a.future))
    ensures r.NotRunning? ==> a.W() == Refreshed(a.contents, old(a.W()), s, old(a.future)) && RowStopped(a.W(), s)
    ensures ByLadder(old(a.W()), a.W(), s, h, r)
    ensures !r.NotRunning? ==> EachFailed(a.start, old(a.log), a.log, s, old(a.now), r.tried)
    ensures !r.NotRunning? && |r.tried| == 3 ==>
              TermsAfter(a.start, old(a.log), a.log, old(a.now) + Waited(r.tried[..2]))
    ensures r.StoppedBy? ==> RowStopped(a.W(), s) && a.servers[s].lastStop == Some(RecordedAs(r.rung))
    ensures r.CouldNotStop? ==> a.servers[s].status.Running? && a.servers[s].lastStop == Some(StopFailed)
    ensures r.CouldNotStop? ==> a.servers[s].pid.Some? && a.servers[s].pid == old(a.servers[s].pid)
  {
    hide FoundAlive, Refreshed, AfterLook, Advance, Appliance.Stored, RowIdle, TermsAfter, ByLadder, Appliance.Valid, StopFrame,
      Only, RowStopped, EnvFrame, HasProcess, Waited, EachFailed, RungsFrom;
    ghost var w, log := a.W(), a.log;
    ghost var all: set<Sort> := {Outside, RowKeeping, Terming};
    var status := RefreshStatus(a, s);
    a.Recorded(s);
    if status.Stopped? {
      OnlyMore(log, a.log, {Outside, RowKeeping}, all);
      NoLadder(w, a.W(), s, h);
      return NotRunning;
    }
    StopFrameSettings(w, a.W(), s);
    ghost var w1, l1 := a.W(), a.log;
    r := TryRungs(a, s, a.servers[s].pid.value, h);
    StopFrameTransitive(w, w1, a.W(), s);
    OnlyTransitive(log, l1, a.log, {Outside, RowKeeping}, all, all);
    LadderWithin(w, w1, a.W(), a.W(), s, h, r);
    FailedWithin(a.start, log, l1, a.log, s, w.now, w1.now, r.tried, {Outside, RowKeeping});
    if |r.tried| == 3 {
      LastRung(a.start, log, l1, a.log, w.now + Waited(r.tried[..2]), w1.now + Waited(r.tried[..2]));
    }
  }

  lemma FailedWithin(start: World, log: seq<Label>, l1: seq<Label>, after: seq<Label>, s: nat, t: real, t1: real,
                     tried: seq<Attempt>, sorts: set<Sort>)
    requires EachFailed(start, l1, after, s, t1, tried) && Only(log, l1, sorts) && t <= t1
    ensures EachFailed(start, log, after, s, t, tried)
  {
    hide Waited;
    forall i | 0 <= i < |tried| && tried[i].StillAlive?
      ensures AliveAt(start, log, after, s, t + Waited(tried[..i + 1]))
    {
      assert AliveAt(start, l1, after, s, t1 + Waited(tried[..i + 1]));
    }
  }

  lemma NoLadder(w: World, w': World, s: nat, h: Host)
    requires s in w.servers && w'.signals == w.signals
    ensures ByLadder(w, w', s, h, NotRunning)
  {
  }

  lemma StopFrameSettings(a: World, b: World, s: nat)
    requires StopFrame(a, b, s)
    ensures s in a.servers && s in b.servers && b.servers[s].settings == a.servers[s].settings
  {
  }

  datatype KillReport = WasStopped | Killed | WasGone | Refused | Survived
  datatype KillEnd = KillEnd(report: KillReport, at: Moment)

  /** What a forced kill comes to. */
  ghost function KilledFrom(c: Contents, w: World, s: nat, h: Host, future: seq<Burst>): KillEnd
    requires s in w.servers
  {
    var at := Moment(Refreshed(c, w, s, future), AfterLook(w, s, future));
    if !FoundAlive(c, w, s, future) then KillEnd(WasStopped, at)
    else KilledAfter(c, s, w.servers[s].pid.value, AfterKill(c, at.world, s, w.servers[s].pid.value, Kill, h.killAnswer, at.future))
  }

  ghost function KilledAfter(c: Contents, s: nat, pid: nat, d: Delivery): KillEnd {
    match d.k
    case NoSuchProcess => KillEnd(WasGone, Moment(Apply(d.at.world, OnServer(s, NoteStopped(Some(BySigkill)))), d.at.future))
    case NotPermitted => KillEnd(Refused, d.at)
    case Delivered =>
      var e := Awaited(c, d.at.world, s, pid, 10, BySigkill, d.at.future);
      if e.o.Exited? then KillEnd(Killed, e.at)
      else KillEnd(Survived, Moment(Apply(e.at.world, OnServer(s, NoteStopFailed)), e.at.future))
  }

  /** SIGKILL to the recorded pid of a row found running, and the wait for the end. */
  method KillProcess(a: Appliance, s: nat, pid: nat, h: Host) returns (r: KillReport)
    requires a.Valid() && s in a.servers && a.servers[s].pid == Some(pid) && a.servers[s].status.Running?
    modifies a
    ensures a.Valid() && s in a.servers && StopFrame(old(a.W()), a.W(), s) && Only(old(a.log), a.log, {Outside, RowKeeping, Killing})
    ensures KillEnd(r, Moment(a.W(), a.future))
         == KilledAfter(a.contents, s, pid, AfterKill(a.contents, old(a.W()), s, pid, Kill, h.killAnswer, old(a.future)))
    ensures !r.WasStopped? && (r.Refused? <==> h.killAnswer.NotPermitted?) && (r.WasGone? ==> h.killAnswer.NoSuchProcess?)
    ensures r.Killed? || r.WasGone? ==> RowStopped(a.W(), s) && a.servers[s].lastStop == Some(BySigkill)
    ensures r.Refused? || r.Survived? ==> a.servers[s].status.Running? && a.servers[s].pid == Some(pid)
    ensures r.Survived? ==> a.servers[s].lastStop == Some(StopFailed)
    ensures r.Survived? ==> HasProcess(a.W(), s) && a.now >= old(a.now) + 10.0
    ensures a.signals == old(a.signals) + if r.Killed? || r.Survived? then [Sent(pid, Kill)] else []
    ensures a.now >= old(a.now)
  {
    hide FoundAlive, Refreshed, AfterLook, Advance, TermsAfter, RowIdle, AfterKill, Awaited, Passes;
    hide Appliance.Valid, Appliance.Stored, StopFrame, EnvFrame, HasProcess, Only, RowStopped;
    ghost var all: set<Sort> := {Outside, RowKeeping, Killing};
    ghost var w, l0 := a.W(), a.log;
    var k := SendKill(a, s, pid, Kill, h.killAnswer);
    ghost var w1, l1 := a.W(), a.log;
    OnlyMore(l0, l1, {Outside, Killing}, all);
    if k.NoSuchProcess? {
      OneMore(l0, l1, OnServer(s, NoteStopped(Some(BySigkill))), all);
      a.MarkStopped(s, Some(BySigkill));
      NoteStops(w1, s, NoteStopped(Some(BySigkill)));
      StopFrameTransitive(w, w1, a.W(), s);
      return WasGone;
    }
    if k.NotPermitted? {
      return Refused;
    }
    var exited := AwaitStop(a, s, pid, STOP_TIMEOUT, BySigkill);
    StopFrameTransitive(w, w1, a.W(), s);
    OnlyTransitive(l0, l1, a.log, all, {Outside, RowKeeping}, all);
    if exited {
      return Killed;
    }
    ghost var w2 := a.W();
    FailureNoted(w2, s);
    OneMore(l0, a.log, OnServer(s, NoteStopFailed), all);
    a.MarkStopFailed(s);
    SameProcesses(w2, a.W(), s);
    StopFrameTransitive(w, w2, a.W(), s);
    return Survived;
  }

  /** SIGKILL, on the operator's word only. */
  method KillServer(a: Appliance, s: nat, h: Host) returns (r: KillReport)
    requires a.Valid() && s in a.servers
    modifies a
    ensures a.Valid() && s in a.servers && StopFrame(old(a.W()), a.W(), s) && Only(old(a.log), a.log, {Outside, RowKeeping, Killing})
    ensures KillEnd(r, Moment(a.W(), a.future)) == KilledFrom(a.contents, old(a.W()), s, h, old(a.future))
    ensures r.WasStopped? <==> !FoundAlive(a.contents, old(a.W()), s, old(a.future))
    ensures r.WasStopped? ==> a.W() == Refreshed(a.contents, old(a.W()), s, old(a.future))
    ensures r.WasStopped? || r.Killed? || r.WasGone? <==> RowStopped(a.W(), s)
    ensures r.Killed? || r.WasGone? ==> a.servers[s].lastStop == Some(BySigkill)
    ensures r.Survived? ==> a.servers[s].lastStop == Some(StopFailed)
    ensures r.Refused? || r.Survived? ==> a.servers[s].status.Running? && a.servers[s].pid == old(a.servers[s].pid)
    ensures r.Killed? || r.Survived? ==> old(a.servers[s].pid).Some?
    ensures a.signals == old(a.signals) +
              if r.Killed? || r.Survived? then [Sent(old(a.servers[s].pid).value, Kill)] else []
    ensures !r.WasStopped? ==> (r.Refused? <==> h.killAnswer.NotPermitted?)
    ensures r.WasGone? ==> h.killAnswer.NoSuchProcess?
    ensures r.WasStopped? ==> a.servers[s].lastStop == old(a.servers[s].lastStop)
    ensures r.Survived? ==> HasProcess(a.W(), s) && a.now >= old(a.now) + 10.0
  {
    hide FoundAlive, Refreshed, AfterLook, Advance, TermsAfter, RowIdle, AfterKill, KilledAfter, Passes;
    hide Appliance.Valid, Appliance.Stored, StopFrame, EnvFrame, HasProcess, Only, RowStopped;
    ghost var all: set<Sort> := {Outside, RowKeeping, Killing};
    ghost var w, l0 := a.W(), a.log;
    var status := RefreshStatus(a, s);
    a.Recorded(s);
    RowStoppedHasNoProcess(a.W(), s);
    OnlyMore(l0, a.log, {Outside, RowKeeping}, all);
    if status.Stopped? {
      return WasStopped;
    }
    ghost var w1, l1 := a.W(), a.log;
    r := KillProcess(a, s, a.servers[s].pid.value, h);
    StopFrameTransitive(w, w1, a.W(), s);
    OnlyTransitive(l0, l1, a.log, all, all, all);
    RowStoppedHasNoProcess(a.W(), s);
  }

  // ----- Restarting ----------------------------------------------------------------

  /** A server without a process gains none from being refreshed or stopped. */
  lemma StoppedStays(w: World, w': World, s: nat)
    requires StopFrame(w, w', s)
    ensures !HasProcess(w, s) ==> !HasProcess(w', s)
  {
  }

  lemma LaunchesAfter(a: seq<Label>, b: seq<Label>, c: seq<Label>, s: nat, sorts: set<Sort>, r: StartReport)
    requires Only(a, b, sorts) && LaunchesLast(b, c, s, {Outside, RowKeeping}, r) && {Outside, RowKeeping} <= sorts
    ensures LaunchesLast(a, c, s, sorts, r)
  {
    hide Only;
    if r.Started? {
      OnlyTransitive(a, b, c[..|c| - 2], sorts, {Outside, RowKeeping}, sorts);
    } else {
      OnlyTransitive(a, b, c, sorts, {Outside, RowKeeping}, sorts);
    }
  }

  /** What a stop and a second look come to. */
  ghost function ConfirmedFrom(c: Contents, w: World, s: nat, h: Host, future: seq<Burst>): StopEnd
    requires s in w.servers
  {
    var e := StoppedFrom(c, w, s, h, future);
    if s !in e.at.world.servers then e
    else StopEnd(e.report, Moment(Refreshed(c, e.at.world, s, e.at.future), AfterLook(e.at.world, s, e.at.future)))
  }

  /** Stop, and look again.  `None` means confirmed; a report means still running. */
  method StopConfirmed(a: Appliance, s: nat, h: Host) returns (failed: Option<StopReport>, ghost stop: StopReport)
    requires a.Valid() && s in a.servers
    modifies a
    ensures a.Valid() && s in a.servers && StopFrame(old(a.W()), a.W(), s) && Only(old(a.log), a.log, {Outside, RowKeeping, Terming})
    ensures StopEnd(stop, Moment(a.W(), a.future)) == ConfirmedFrom(a.contents, old(a.W()), s, h, old(a.future))
    ensures stop.NotRunning? <==> !FoundAlive(a.contents, old(a.W()), s, old(a.future))
    ensures ByLadder(old(a.W()), a.W(), s, h, stop)
    ensures failed.None? ==> RowStopped(a.W(), s)
    ensures failed.Some? ==> failed.value == stop && stop.CouldNotStop? && HasProcess(a.W(), s)
    ensures failed.Some? ==> a.servers[s].status.Running? && a.servers[s].pid == old(a.servers[s].pid)
  {
    hide FoundAlive, Refreshed, AfterLook, Advance, TermsAfter, ByLadder, StoppedFrom, EachFailed;
    hide Appliance.Valid, StopFrame, RowStopped, HasProcess, Only, Ladder;
    ghost var w, log := a.W(), a.log;
    var report := StopServer(a, s, h);
    stop := report;
    ghost var w1, l1 := a.W(), a.log;
    RowStoppedHasNoProcess(w1, s);
    var status := RefreshStatus(a, s);
    StopFrameTransitive(w, w1, a.W(), s);
    OnlyTransitive(log, l1, a.log, {Outside, RowKeeping, Terming}, {Outside, RowKeeping}, {Outside, RowKeeping, Terming});
    LadderWithin(w, w, w1, a.W(), s, h, stop);
    failed := if status.Stopped? then None else Some(report);
  }

  datatype RestartReport =
    | StartedFresh(start: StartReport)
    | RestartAborted(stop: StopReport)
    | Restarted(start: StartReport)

  /** Stop, confirm, start.  A server found stopped is started and nothing else; one found
      running is stopped down the ladder first.  A launch comes last, after the stop was
      confirmed; an aborted restart launches nothing and leaves the row running. */
  method RestartServer(a: Appliance, s: nat, h: Host) returns (r: RestartReport, ghost stop: StopReport)
    requires a.Valid() && s in a.servers
    modifies a
    ensures a.Valid()
    ensures r.StartedFresh? <==> !FoundAlive(a.contents, old(a.W()), s, old(a.future))
    ensures r.StartedFresh? ==>
              StartedFrom(a.contents, Refreshed(a.contents, old(a.W()), s, old(a.future)),
                          AfterLook(old(a.W()), s, old(a.future)), s, h, r.start, a.W())
    ensures !r.StartedFresh? ==> ByLadder(old(a.W()), a.W(), s, h, stop)
    ensures !r.StartedFresh? ==>
              var e := ConfirmedFrom(a.contents, Refreshed(a.contents, old(a.W()), s, old(a.future)), s, h,
                                     AfterLook(old(a.W()), s, old(a.future)));
              && stop == e.report
              && if r.RestartAborted? then a.W() == e.at.world
                 else StartedFrom(a.contents, e.at.world, e.at.future, s, h, r.start, a.W())
    ensures r.RestartAborted? ==>
              && s in a.servers && r.stop == stop && stop.CouldNotStop?
              && a.servers[s].status.Running? && a.servers[s].pid == old(a.servers[s].pid)
              && StopFrame(old(a.W()), a.W(), s) && Only(old(a.log), a.log, {Outside, RowKeeping, Terming})
    ensures !r.RestartAborted? ==>
              && StartFrame(old(a.W()), a.W(), s, r.start)
              && StartOutcome(a.W(), s, h, r.start) && !r.start.AlreadyRunning?
              && LaunchesLast(old(a.log), a.log, s, {Outside, RowKeeping, Terming}, r.start)
  {
    hide FoundAlive, Refreshed, AfterLook, Advance, StartedFrom, ByLadder, ConfirmedFrom;
    hide Appliance.Valid, Appliance.Stored, StopFrame, StartFrame, StartOutcome, Only, HasProcess, RowStopped, LaunchesLast;
    ghost var w, log := a.W(), a.log;
    ghost var all: set<Sort> := {Outside, RowKeeping, Terming};
    stop := NotRunning;
    var status := RefreshStatus(a, s);
    StopFrameSettings(w, a.W(), s);
    RowStoppedHasNoProcess(a.W(), s);
    ghost var w1, l1 := a.W(), a.log;
    OnlyMore(log, l1, {Outside, RowKeeping}, all);
    if status.Stopped? {
      var start := StartServer(a, s, h);
      StartAfterStop(w, w1, a.W(), s, start);
      LaunchesAfter(log, l1, a.log, s, all, start);
      return StartedFresh(start), stop;
    }
    var failed;
    failed, stop := StopConfirmed(a, s, h);
    StopFrameTransitive(w, w1, a.W(), s);
    LadderWithin(w, w1, a.W(), a.W(), s, h, stop);
    ghost var w2, l2 := a.W(), a.log;
    OnlyTransitive(log, l1, l2, all, all, all);
    if failed.Some? {
      return RestartAborted(failed.value), stop;
    }
    RowStoppedHasNoProcess(w2, s);
    var start := StartServer(a, s, h);
    StartIsLater(w2, a.W(), s, start);
    LadderWithin(w, w, w2, a.W(), s, h, stop);
    StartAfterStop(w, w2, a.W(), s, start);
    LaunchesAfter(log, l2, a.log, s, all, start);
    return Restarted(start), stop;
  }

  lemma StartIsLater(w: World, w': World, s: nat, r: StartReport)
    requires StartFrame(w, w', s, r)
    ensures w'.now >= w.now
  {
  }
}
