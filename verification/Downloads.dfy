/** Any number of jar downloads, interleaved step by step and cut off anywhere. */
module Downloads {
  import opened Options
  import opened Text

  type Bytes = seq<bv8>

  const MAX_DOWNLOAD_BYTES := 512 * 1024 * 1024

  // ----- The machine ---------------------------------------------------------------------

  datatype Phase = Streaming | Verified | Replaced | Failing | Failed

  /** One call: its temporary file on disk, what has been hashed and counted, and how far it is. */
  datatype Download = Download(version: string, expected: Option<string>, temp: Option<Bytes>,
                               hashed: Bytes, total: nat, phase: Phase)

  datatype State = State(jars: map<string, Bytes>, downloads: map<nat, Download>)

  datatype Step =
    | Begin(id: nat, version: string, expected: Option<string>)
    | Receive(id: nat, chunk: Bytes)
    | Break(id: nat)
    | Finish(id: nat)
    | Replace(id: nat)
    | CleanUp(id: nat, removed: bool)

  /** The digest check, when there is a digest to check against. */
  predicate Matches(sha1: Bytes -> string, expected: Option<string>, body: Bytes) {
    expected.Some? && expected.value != "" ==> Lower(sha1(body)) == Lower(expected.value)
  }

  /** What may become a jar: not empty, at most half a gibibyte, and with the digest that was
      asked for, if one was. */
  predicate Acceptable(sha1: Bytes -> string, expected: Option<string>, body: Bytes) {
    0 < |body| <= 536_870_912 && (expected.Some? && expected.value != "" ==> Lower(sha1(body)) == Lower(expected.value))
  }

  lemma AcceptableIff(sha1: Bytes -> string, expected: Option<string>, body: Bytes)
    ensures Acceptable(sha1, expected, body) <==> 0 < |body| <= 536_870_912 && Matches(sha1, expected, body)
  {
    hide Lower;
  }

  predicate Enabled(s: State, step: Step) {
    match step
    case Begin(id, _, _) => id !in s.downloads
    case Receive(id, chunk) => id in s.downloads && s.downloads[id].phase.Streaming? && chunk != []
    case Break(id) => id in s.downloads && (s.downloads[id].phase.Streaming? || s.downloads[id].phase.Verified?)
    case Finish(id) => id in s.downloads && s.downloads[id].phase.Streaming?
    case Replace(id) =>
      id in s.downloads && s.downloads[id].phase.Verified? && s.downloads[id].temp.Some?
    case CleanUp(id, _) => id in s.downloads && s.downloads[id].phase.Failing?
  }

  /** A chunk is counted, then hashed and written unless it breaks the ceiling. */
  function Received(d: Download, chunk: Bytes): Download {
    var total := d.total + |chunk|;
    if total > MAX_DOWNLOAD_BYTES then d.(total := total, phase := Failing)
    else d.(total := total, hashed := d.hashed + chunk,
            temp := if d.temp.Some? then Some(d.temp.value + chunk) else None)
  }

  /** The checks made once the body has ended. */
  function Checked(sha1: Bytes -> string, d: Download): Download {
    if d.total == 0 then d.(phase := Failing)
    else if !Matches(sha1, d.expected, d.hashed) then d.(phase := Failing)
    else d.(phase := Verified)
  }

  function Apply(sha1: Bytes -> string, s: State, step: Step): State
    requires Enabled(s, step)
  {
    match step
    case Begin(id, version, expected) =>
      s.(downloads := s.downloads[id := Download(version, expected, Some([]), [], 0, Streaming)])
    case Receive(id, chunk) => s.(downloads := s.downloads[id := Received(s.downloads[id], chunk)])
    case Break(id) => s.(downloads := s.downloads[id := s.downloads[id].(phase := Failing)])
    case Finish(id) => s.(downloads := s.downloads[id := Checked(sha1, s.downloads[id])])
    case Replace(id) =>
      var d := s.downloads[id];
      State(s.jars[d.version := d.temp.value], s.downloads[id := d.(temp := None, phase := Replaced)])
    case CleanUp(id, removed) =>
      var d := s.downloads[id];
      s.(downloads := s.downloads[id := d.(temp := if removed then None else d.temp, phase := Failed)])
  }

  predicate Legal(sha1: Bytes -> string, init: State, run: seq<Step>)
    decreases |run|, 0
  {
    run == [] || (Legal(sha1, init, run[..|run| - 1])
                  && Enabled(Exec(sha1, init, run[..|run| - 1]), run[|run| - 1]))
  }

  function Exec(sha1: Bytes -> string, init: State, run: seq<Step>): State
    requires Legal(sha1, init, run)
    decreases |run|, 1
  {
    if run == [] then init
    else Apply(sha1, Exec(sha1, init, run[..|run| - 1]), run[|run| - 1])
  }

  /** Everything download `id` received in the run. */
  function BodyOf(run: seq<Step>, id: nat): Bytes {
    if run == [] then []
    else
      var body, last := BodyOf(run[..|run| - 1], id), run[|run| - 1];
      if last.Receive? && last.id == id then body + last.chunk else body
  }

  /** The last step of the run that put a jar in place for `version`. */
  function LastReplaced(sha1: Bytes -> string, init: State, run: seq<Step>, version: string): (r: Option<nat>)
    requires Legal(sha1, init, run)
  {
    if run == [] then None
    else
      var front, last := run[..|run| - 1], run[|run| - 1];
      if last.Replace? && Exec(sha1, init, front).downloads[last.id].version == version then Some(last.id)
      else LastReplaced(sha1, init, front, version)
  }

  // ----- What every step keeps -----------------------------------------------------------

  /** A download under way has on disk exactly what it hashed and counted. */
  predicate Sound(sha1: Bytes -> string, d: Download) {
    && (d.phase.Streaming? || d.phase.Verified? ==>
          d.temp == Some(d.hashed) && d.total == |d.hashed| <= 536_870_912)
    && (d.phase.Verified? || d.phase.Replaced? ==> Acceptable(sha1, d.expected, d.hashed))
    && (d.phase.Replaced? ==> d.temp == None)
  }

  predicate AllSound(sha1: Bytes -> string, s: State) {
    forall id :: id in s.downloads ==> Sound(sha1, s.downloads[id])
  }

  lemma StepKeepsSound(sha1: Bytes -> string, s: State, step: Step)
    requires AllSound(sha1, s) && Enabled(s, step)
    ensures AllSound(sha1, Apply(sha1, s, step))
  {
    hide Lower;
  }

  predicate Fresh(s: State) {
    s.downloads == map[]
  }

  /** The link between a download's own state and the run: what it was begun with and what
      it has received, as long as it has not failed. */
  predicate Traced(run: seq<Step>, id: nat, d: Download) {
    && Begin(id, d.version, d.expected) in run
    && (d.phase.Streaming? || d.phase.Verified? || d.phase.Replaced? ==> d.hashed == BodyOf(run, id))
  }

  lemma {:induction false} RunIsTraced(sha1: Bytes -> string, init: State, run: seq<Step>)
    requires Fresh(init) && Legal(sha1, init, run)
    ensures AllSound(sha1, Exec(sha1, init, run))
    ensures AllTraced(run, Exec(sha1, init, run))
    decreases |run|
  {
    if run != [] {
      var front, last := run[..|run| - 1], run[|run| - 1];
      RunIsTraced(sha1, init, front);
      var s := Exec(sha1, init, front);
      StepKeepsSound(sha1, s, last);
      StepKeepsTraces(sha1, s, front, last);
      assert front + [last] == run;
    }
  }

  ghost predicate AllTraced(run: seq<Step>, s: State) {
    && (forall id :: id in s.downloads ==> Traced(run, id, s.downloads[id]))
    && (forall id: nat :: id !in s.downloads ==> BodyOf(run, id) == [])
  }

  lemma StepKeepsTraces(sha1: Bytes -> string, s: State, front: seq<Step>, last: Step)
    requires Enabled(s, last) && AllTraced(front, s)
    ensures AllTraced(front + [last], Apply(sha1, s, last))
  {
    var s' := Apply(sha1, s, last);
    hide Traced, Matches, Checked, Received;
    assert (front + [last])[..|front|] == front;
    forall id | id in s'.downloads ensures Traced(front + [last], id, s'.downloads[id]) {
      StepKeepsTrace(sha1, s, front, last, id);
    }
  }

  lemma StepKeepsTrace(sha1: Bytes -> string, s: State, front: seq<Step>, last: Step, id: nat)
    requires Enabled(s, last) && id in Apply(sha1, s, last).downloads
    requires id in s.downloads ==> Traced(front, id, s.downloads[id])
    requires id !in s.downloads ==> BodyOf(front, id) == []
    ensures Traced(front + [last], id, Apply(sha1, s, last).downloads[id])
  {
    hide Lower, Matches;
    assert (front + [last])[..|front|] == front;
    assert last in front + [last];
  }

  // ----- The theorems --------------------------------------------------------------------

  /** The jar of `version` is what download `id` hashed, and that download has ended. */
  predicate HoldsJar(s: State, version: string, id: nat) {
    && id in s.downloads && version in s.jars
    && s.downloads[id].phase.Replaced? && s.downloads[id].version == version
    && s.jars[version] == s.downloads[id].hashed
  }

  predicate SameJar(a: State, b: State, version: string) {
    (version in a.jars <==> version in b.jars) && (version in a.jars ==> a.jars[version] == b.jars[version])
  }

  lemma StepKeepsJar(sha1: Bytes -> string, s: State, step: Step, version: string, id: nat)
    requires Enabled(s, step) && HoldsJar(s, version, id)
    requires step.Replace? ==> s.downloads[step.id].version != version
    ensures HoldsJar(Apply(sha1, s, step), version, id)
  {
    hide Matches, Checked, Received;
  }

  lemma StepKeepsSame(sha1: Bytes -> string, s: State, step: Step, version: string)
    requires Enabled(s, step)
    requires step.Replace? ==> s.downloads[step.id].version != version
    ensures SameJar(s, Apply(sha1, s, step), version)
  {
    hide Matches, Checked, Received;
  }

  lemma ReplacePutsJar(sha1: Bytes -> string, s: State, step: Step)
    requires Enabled(s, step) && AllSound(sha1, s) && step.Replace?
    ensures HoldsJar(Apply(sha1, s, step), s.downloads[step.id].version, step.id)
  {
    hide Lower;
    assert Sound(sha1, s.downloads[step.id]);
  }

  lemma {:induction false} JarByLastReplaced(sha1: Bytes -> string, init: State, run: seq<Step>, version: string)
    requires Fresh(init) && Legal(sha1, init, run)
    ensures var s, r := Exec(sha1, init, run), LastReplaced(sha1, init, run, version);
            && (r.None? ==> SameJar(init, s, version))
            && (r.Some? ==> HoldsJar(s, version, r.value))
    decreases |run|
  {
    if run != [] {
      var front, last := run[..|run| - 1], run[|run| - 1];
      JarByLastReplaced(sha1, init, front, version);
      RunIsTraced(sha1, init, front);
      var s := Exec(sha1, init, front);
      hide HoldsJar, AllSound, AllTraced, Fresh, Apply;
      if last.Replace? && s.downloads[last.id].version == version {
        ReplacePutsJar(sha1, s, last);
      } else {
        StepKeepsSame(sha1, s, last, version);
        var r := LastReplaced(sha1, init, front, version);
        if r.Some? {
          StepKeepsJar(sha1, s, last, version, r.value);
        }
      }
    }
  }

  /** At every point of every run a version's jar is the one there was at the start, or else
      the whole body received by the last download that replaced it: not empty, within the
      ceiling, and matching the digest that download was given. */
  lemma CachedJarIsWhole(sha1: Bytes -> string, init: State, run: seq<Step>, version: string)
    requires Fresh(init) && Legal(sha1, init, run)
    ensures var s, r := Exec(sha1, init, run), LastReplaced(sha1, init, run, version);
            && (r.None? ==> SameJar(init, s, version))
            && (r.Some? ==>
                  && version in s.jars && s.jars[version] == BodyOf(run, r.value)
                  && 0 < |s.jars[version]| <= 536_870_912
                  && exists e :: Begin(r.value, version, e) in run
                       && (e.Some? && e.value != "" ==> Lower(sha1(s.jars[version])) == Lower(e.value)))
  {
    JarByLastReplaced(sha1, init, run, version);
    RunIsTraced(sha1, init, run);
    var s, r := Exec(sha1, init, run), LastReplaced(sha1, init, run, version);
    hide Lower, Legal, Exec, LastReplaced, BodyOf, Fresh;
    if r.Some? {
      var d := s.downloads[r.value];
      assert Traced(run, r.value, d) && Sound(sha1, d);
      assert Begin(r.value, version, d.expected) in run;
    }
  }

  /** As long as no download has reached its replacement, every jar there was stays. */
  lemma {:induction false} FailedKeepsJar(sha1: Bytes -> string, init: State, run: seq<Step>, version: string)
    requires Legal(sha1, init, run) && forall step :: step in run ==> !step.Replace?
    ensures SameJar(init, Exec(sha1, init, run), version)
    decreases |run|
  {
    if run != [] {
      var front, last := run[..|run| - 1], run[|run| - 1];
      assert last in run;
      FailedKeepsJar(sha1, init, front, version);
      hide Apply, Enabled;
      StepKeepsSame(sha1, Exec(sha1, init, front), last, version);
    }
  }

  function Without(run: seq<Step>, id: nat): seq<Step> {
    if run == [] then []
    else
      var rest, last := Without(run[..|run| - 1], id), run[|run| - 1];
      if last.id == id then rest else rest + [last]
  }

  predicate SameBut(a: State, b: State, id: nat) {
    a.jars == b.jars && a.downloads == b.downloads - {id}
  }

  lemma OwnStepUnseen(sha1: Bytes -> string, a: State, b: State, step: Step)
    requires SameBut(a, b, step.id) && Enabled(b, step) && !step.Replace?
    ensures SameBut(a, Apply(sha1, b, step), step.id)
  {
    hide Matches, Checked, Received;
  }

  lemma OtherStepAgrees(sha1: Bytes -> string, a: State, b: State, step: Step, id: nat)
    requires SameBut(a, b, id) && Enabled(b, step) && step.id != id
    ensures Enabled(a, step) && SameBut(Apply(sha1, a, step), Apply(sha1, b, step), id)
  {
    hide Matches, Checked, Received;
  }

  /** A download that never reaches its replacement leaves no trace: striking all its steps
      from the run gives a run with the same jars and the same other downloads. */
  lemma {:induction false} FailedLeavesNoTrace(sha1: Bytes -> string, init: State, run: seq<Step>, id: nat)
    requires Legal(sha1, init, run) && id !in init.downloads
    requires Replace(id) !in run
    ensures Legal(sha1, init, Without(run, id))
    ensures SameBut(Exec(sha1, init, Without(run, id)), Exec(sha1, init, run), id)
    decreases |run|
  {
    if run != [] {
      var front, last := run[..|run| - 1], run[|run| - 1];
      FailedLeavesNoTrace(sha1, init, front, id);
      var a, b := Exec(sha1, init, Without(front, id)), Exec(sha1, init, front);
      hide SameBut, Enabled, Apply;
      if last.id == id {
        assert last in run;
        OwnStepUnseen(sha1, a, b, last);
      } else {
        OtherStepAgrees(sha1, a, b, last, id);
        RunSnoc(sha1, init, Without(front, id), last);
      }
    }
  }

  lemma RunSnoc(sha1: Bytes -> string, init: State, run: seq<Step>, step: Step)
    requires Legal(sha1, init, run) && Enabled(Exec(sha1, init, run), step)
    ensures Legal(sha1, init, run + [step])
    ensures Exec(sha1, init, run + [step]) == Apply(sha1, Exec(sha1, init, run), step)
  {
    assert (run + [step])[..|run|] == run;
  }
}
