/** The jar cache: one download at a time, chunk by chunk, and the table of cached jars. */
module JarCaches {
  import opened Options
  import opened Text
  import opened Downloads

  // ----- The server's answer -------------------------------------------------------------

  /** What one read yields; an empty chunk ends the body, and so does having no more. */
  datatype Response = Data(chunk: Bytes) | Broken

  predicate IsEnd(responses: seq<Response>) {
    responses == [] || responses[0] == Data([])
  }

  /** The body, if it arrives whole and within the ceiling. */
  function Body(responses: seq<Response>, sofar: Bytes): (r: Option<Bytes>)
    requires |sofar| <= 536_870_912
    ensures r.Some? ==> |r.value| <= 536_870_912
  {
    if IsEnd(responses) then Some(sofar)
    else if responses[0].Broken? then None
    else if |sofar| + |responses[0].chunk| > 536_870_912 then None
    else Body(responses[1..], sofar + responses[0].chunk)
  }

  /** The answers up to the first that ends the body. */
  function Sent(responses: seq<Response>): seq<Response> {
    if IsEnd(responses) then [] else [responses[0]] + Sent(responses[1..])
  }

  function Flat(responses: seq<Response>): Bytes {
    if responses == [] then []
    else (if responses[0].Data? then responses[0].chunk else []) + Flat(responses[1..])
  }

  /** A body arrives exactly when nothing breaks before its end and all of it fits; it is
      then all that was sent. */
  lemma {:induction false} BodyIff(responses: seq<Response>, sofar: Bytes)
    requires |sofar| <= 536_870_912
    ensures Broken !in Sent(responses) && |sofar| + |Flat(Sent(responses))| <= 536_870_912
            ==> Body(responses, sofar) == Some(sofar + Flat(Sent(responses)))
    ensures Broken in Sent(responses) || |sofar| + |Flat(Sent(responses))| > 536_870_912
            ==> Body(responses, sofar) == None
    decreases |responses|
  {
    if IsEnd(responses) {
      assert sofar + [] == sofar;
    } else {
      SentStep(responses);
      BodyStep(responses, sofar);
      hide Sent, Flat, Body, IsEnd;
      var first, rest := responses[0], responses[1..];
      if first.Data? && |sofar| + |first.chunk| <= 536_870_912 {
        BodyIff(rest, sofar + first.chunk);
        Regroup(sofar, first.chunk, Flat(Sent(rest)));
      }
    }
  }

  lemma Regroup(a: Bytes, b: Bytes, c: Bytes)
    ensures (a + b) + c == a + (b + c)
  {
  }

  lemma BodyStep(responses: seq<Response>, sofar: Bytes)
    requires |sofar| <= 536_870_912 && !IsEnd(responses)
    ensures var first := responses[0];
            && (first.Broken? || |sofar| + |first.chunk| > 536_870_912 ==> Body(responses, sofar) == None)
            && (first.Data? && |sofar| + |first.chunk| <= 536_870_912 ==>
                  Body(responses, sofar) == Body(responses[1..], sofar + first.chunk))
  {
  }

  lemma SentStep(responses: seq<Response>)
    requires !IsEnd(responses)
    ensures var first, rest := responses[0], Sent(responses[1..]);
            && (first.Data? ==> Flat(Sent(responses)) == first.chunk + Flat(rest))
            && (Broken in Sent(responses) <==> first.Broken? || Broken in rest)
  {
    var sent := Sent(responses);
    assert sent[0] == responses[0] && sent[1..] == Sent(responses[1..]);
  }

  // ----- The table -----------------------------------------------------------------------

  /** What Mojang's metadata says of a version's server jar. */
  datatype Info = Info(url: string, sha1: Option<string>)

  datatype JarRow = JarRow(vanilla: bool, version: string, url: string, sha1: Option<string>, size: nat, isLatest: bool)

  predicate IsRow(row: JarRow, version: string) {
    row.vanilla && row.version == version
  }

  /** The first row of `version`, or where a new one goes. */
  function RowAt(rows: seq<JarRow>, version: string): (i: nat)
    ensures i <= |rows| && (i < |rows| ==> IsRow(rows[i], version))
    ensures forall j :: 0 <= j < i ==> !IsRow(rows[j], version)
  {
    if rows == [] || IsRow(rows[0], version) then 0 else 1 + RowAt(rows[1..], version)
  }

  function Upserted(rows: seq<JarRow>, version: string, info: Info, size: nat): seq<JarRow> {
    var i := RowAt(rows, version);
    if i < |rows| then rows[i := rows[i].(url := info.url, sha1 := info.sha1, size := size)]
    else rows + [JarRow(true, version, info.url, info.sha1, size, false)]
  }

  function Marked(rows: seq<JarRow>, latest: string): (r: seq<JarRow>)
    ensures |r| == |rows|
    ensures forall i :: 0 <= i < |rows| ==> r[i] == MarkedRow(rows[i], latest)
  {
    seq(|rows|, i requires 0 <= i < |rows| => MarkedRow(rows[i], latest))
  }

  function MarkedRow(row: JarRow, latest: string): JarRow {
    if row.vanilla then row.(isLatest := row.version == latest) else row
  }

  /** The table after a download, with the manifest's latest release if it could be read. */
  function Refreshed(rows: seq<JarRow>, version: string, info: Info, size: nat, latest: Option<string>): seq<JarRow> {
    var upserted := Upserted(rows, version, info, size);
    if latest.Some? then Marked(upserted, latest.value) else upserted
  }

  predicate OneRowEach(rows: seq<JarRow>) {
    forall i, j :: 0 <= i < j < |rows| && rows[i].vanilla && rows[j].vanilla ==> rows[i].version != rows[j].version
  }

  predicate OneLatest(rows: seq<JarRow>) {
    forall i, j :: 0 <= i < j < |rows| && rows[i].vanilla && rows[j].vanilla ==> !(rows[i].isLatest && rows[j].isLatest)
  }

  /** Each row tells the size and the digest of the jar on disk. */
  predicate Describes(sha1: Bytes -> string, rows: seq<JarRow>, jars: map<string, Bytes>) {
    forall i :: 0 <= i < |rows| && rows[i].vanilla ==>
      && rows[i].version in jars
      && rows[i].size == |jars[rows[i].version]|
      && Acceptable(sha1, rows[i].sha1, jars[rows[i].version])
  }

  predicate SameOthers(a: seq<JarRow>, b: seq<JarRow>) {
    && |a| <= |b|
    && (forall i :: 0 <= i < |a| ==> a[i].vanilla == b[i].vanilla && (a[i].vanilla || a[i] == b[i]))
    && forall i :: |a| <= i < |b| ==> b[i].vanilla
  }

  /** One row per version, at most one latest, each row describing its jar, and no row of
      another server type touched: kept by every refresh. */
  lemma RefreshKeeps(sha1: Bytes -> string, rows: seq<JarRow>, jars: map<string, Bytes>,
                     version: string, info: Info, body: Bytes, latest: Option<string>)
    requires OneRowEach(rows) && OneLatest(rows) && Describes(sha1, rows, jars)
    requires Acceptable(sha1, info.sha1, body)
    ensures var after := Refreshed(rows, version, info, |body|, latest);
            && OneRowEach(after) && OneLatest(after) && Describes(sha1, after, jars[version := body])
            && SameOthers(rows, after) && exists r :: r in after && IsRow(r, version)
  {
    var upserted := Upserted(rows, version, info, |body|);
    UpsertKeeps(sha1, rows, jars, version, info, body);
    if latest.Some? {
      MarkKeeps(sha1, upserted, jars[version := body], latest.value);
      var after := Marked(upserted, latest.value);
      var i := RowAt(upserted, version);
      assert IsRow(after[i], version) && after[i] in after;
    }
  }

  /** A crash after the jar was replaced and before its row was committed: the table still
      describes the files if and only if the version has no row yet, or its row happens to fit
      the new jar too. */
  lemma CutRefreshIff(sha1: Bytes -> string, rows: seq<JarRow>, jars: map<string, Bytes>, version: string, body: Bytes)
    requires OneRowEach(rows) && Describes(sha1, rows, jars)
    ensures var i := RowAt(rows, version);
            Describes(sha1, rows, jars[version := body])
            <==> i == |rows| || (rows[i].size == |body| && Acceptable(sha1, rows[i].sha1, body))
  {
    hide Acceptable;
    var i := RowAt(rows, version);
    if i < |rows| {
      assert IsRow(rows[i], version);
    }
  }

  lemma UpsertKeeps(sha1: Bytes -> string, rows: seq<JarRow>, jars: map<string, Bytes>,
                    version: string, info: Info, body: Bytes)
    requires OneRowEach(rows) && OneLatest(rows) && Describes(sha1, rows, jars)
    requires Acceptable(sha1, info.sha1, body)
    ensures var after := Upserted(rows, version, info, |body|);
            && OneRowEach(after) && OneLatest(after) && Describes(sha1, after, jars[version := body])
            && SameOthers(rows, after) && RowAt(after, version) < |after| && exists r :: r in after && IsRow(r, version)
  {
    hide Acceptable;
    var after := Upserted(rows, version, info, |body|);
    var i := RowAt(rows, version);
    assert IsRow(after[i], version);
    assert after[i] in after;
  }

  lemma MarkKeeps(sha1: Bytes -> string, rows: seq<JarRow>, jars: map<string, Bytes>, latest: string)
    requires OneRowEach(rows) && Describes(sha1, rows, jars)
    ensures var after := Marked(rows, latest);
            && OneRowEach(after) && OneLatest(after) && Describes(sha1, after, jars) && SameOthers(rows, after)
            && forall i :: 0 <= i < |after| && after[i].vanilla ==> (after[i].isLatest <==> after[i].version == latest)
  {
    hide Acceptable;
  }

  // ----- The cache -----------------------------------------------------------------------

  datatype Result = Ok(size: nat) | Error

  const NOTHING := State(map[], map[])

  /** The files on disk are those of machine state `s`. */
  ghost predicate OnDisk(s: State, jars: map<string, Bytes>, temps: map<nat, Bytes>) {
    && jars == s.jars
    && (forall id :: id in temps <==> id in s.downloads && s.downloads[id].temp.Some?)
    && (forall id :: id in temps ==> s.downloads[id].temp == Some(temps[id]))
  }

  class JarCache {
    const sha1: Bytes -> string
    /** The jar file of each version. */
    var jars: map<string, Bytes>
    /** Temporary files on disk. */
    var temps: map<nat, Bytes>
    /** The next temporary file is new. */
    var next: nat
    var rows: seq<JarRow>
    /** The steps taken so far, as steps of the interleaved machine. */
    ghost var run: seq<Step>

    constructor (sha1: Bytes -> string)
      ensures Valid() && Settled() && jars == map[] && temps == map[] && rows == [] && this.sha1 == sha1
    {
      this.sha1 := sha1;
      jars, temps, next, rows, run := map[], map[], 0, [], [];
      new;
      assert Exec(sha1, NOTHING, []) == NOTHING;
    }

    ghost function Machine(): State
      reads this
      requires Legal(sha1, NOTHING, run)
    {
      Exec(sha1, NOTHING, run)
    }

    ghost predicate Valid()
      reads this
    {
      Legal(sha1, NOTHING, run) && OnDisk(Machine(), jars, temps) && forall id :: id in Machine().downloads ==> id < next
    }

    /** Between downloads the table is in order and describes the files. */
    ghost predicate Settled()
      reads this
    {
      OneRowEach(rows) && OneLatest(rows) && Describes(sha1, rows, jars)
    }

    /** `step` was taken from `before`. */
    ghost predicate Did(before: State, step: Step)
      reads this
    {
      Valid() && Enabled(before, step) && Machine() == Apply(sha1, before, step)
    }

    /** mkstemp: an empty file under a new name. */
    method Open(version: string, expected: Option<string>) returns (id: nat)
      requires Valid()
      modifies `temps, `next, `run
      ensures run == old(run) + [Begin(id, version, expected)] && Did(old(Machine()), Begin(id, version, expected))
      ensures id !in old(temps) && temps == old(temps)[id := []]
    {
      id := next;
      ghost var step := Begin(id, version, expected);
      RunSnoc(sha1, NOTHING, run, step);
      temps, next, run := temps[id := []], next + 1, run + [step];
    }

    method Append(id: nat, chunk: Bytes)
      requires Valid() && Enabled(Machine(), Receive(id, chunk)) && id in temps
      requires Machine().downloads[id].total + |chunk| <= MAX_DOWNLOAD_BYTES
      modifies `temps, `run
      ensures run == old(run) + [Receive(id, chunk)] && Did(old(Machine()), Receive(id, chunk))
      ensures temps == old(temps)[id := old(temps)[id] + chunk]
    {
      RunSnoc(sha1, NOTHING, run, Receive(id, chunk));
      temps, run := temps[id := temps[id] + chunk], run + [Receive(id, chunk)];
    }

    /** A step that leaves the files alone. */
    ghost method Note(step: Step)
      requires Valid() && Enabled(Machine(), step)
      requires step.Break? || step.Finish? ||
               (step.Receive? && Machine().downloads[step.id].total + |step.chunk| > MAX_DOWNLOAD_BYTES)
      modifies `run
      ensures run == old(run) + [step] && Did(old(Machine()), step)
    {
      RunSnoc(sha1, NOTHING, run, step);
      run := run + [step];
    }

    /** os.replace */
    method PutInPlace(id: nat, version: string)
      requires Valid() && Enabled(Machine(), Replace(id)) && id in temps
      requires Machine().downloads[id].version == version
      modifies `jars, `temps, `run
      ensures run == old(run) + [Replace(id)] && Did(old(Machine()), Replace(id))
      ensures jars == old(jars)[version := old(temps)[id]] && temps == old(temps) - {id}
    {
      RunSnoc(sha1, NOTHING, run, Replace(id));
      jars, temps, run := jars[version := temps[id]], temps - {id}, run + [Replace(id)];
    }

    /** unlink, which may fail */
    method Discard(id: nat, works: bool)
      requires Valid() && Enabled(Machine(), CleanUp(id, works)) && id in temps
      modifies `temps, `run
      ensures run == old(run) + [CleanUp(id, works)] && Did(old(Machine()), CleanUp(id, works))
      ensures temps == if works then old(temps) - {id} else old(temps)
    {
      RunSnoc(sha1, NOTHING, run, CleanUp(id, works));
      temps, run := if works then temps - {id} else temps, run + [CleanUp(id, works)];
    }

    /** The reading loop: counts each chunk, then hashes and writes it. */
    method ReadBody(id: nat, version: string, expected: Option<string>, responses: seq<Response>)
      returns (hashed: Bytes, total: nat, failed: bool)
      requires Valid() && id in temps && id in Machine().downloads
      requires Machine().downloads[id] == Download(version, expected, Some([]), [], 0, Streaming) && temps[id] == []
      modifies `temps, `run
      ensures Valid() && old(run) <= run && id in Machine().downloads && id in temps && temps - {id} == old(temps) - {id}
      ensures failed <==> Body(responses, []).None?
      ensures failed ==> Machine().downloads[id].phase.Failing? && Machine().downloads[id].version == version
      ensures !failed ==> Body(responses, []) == Some(hashed) && total == |hashed| && temps[id] == hashed &&
                          Machine().downloads[id] == Download(version, expected, Some(hashed), hashed, total, Streaming)
    {
      hide Legal, Exec, Lower, Matches, OnDisk;
      var rest := responses;
      hashed, total, failed := [], 0, false;
      while !failed && !IsEnd(rest)
        invariant Valid() && old(run) <= run
        invariant id in temps && temps - {id} == old(temps) - {id} && id in Machine().downloads
        invariant failed ==> Machine().downloads[id].phase.Failing? && Machine().downloads[id].version == version
        invariant failed ==> Body(responses, []).None?
        invariant !failed ==> total == |hashed| <= 536_870_912 && Body(responses, []) == Body(rest, hashed)
        invariant !failed ==> temps[id] == hashed &&
                              Machine().downloads[id] == Download(version, expected, Some(hashed), hashed, total, Streaming)
        decreases |rest|
      {
        var response := rest[0];
        BodyStep(rest, hashed);
        rest := rest[1..];
        if response.Broken? {
          Note(Break(id));
          failed := true;
        } else {
          total := total + |response.chunk|;
          if total > MAX_DOWNLOAD_BYTES {
            Note(Receive(id, response.chunk));
            failed := true;
          } else {
            Append(id, response.chunk);
            hashed := hashed + response.chunk;
          }
        }
      }
    }

    /** The checks on a whole body, and the rename, which may fail. */
    method Commit(id: nat, version: string, expected: Option<string>, hashed: Bytes, total: nat, replaceWorks: bool)
      returns (ok: bool)
      requires Valid() && id in temps && temps[id] == hashed && id in Machine().downloads
      requires Machine().downloads[id] == Download(version, expected, Some(hashed), hashed, total, Streaming)
      requires total == |hashed| <= 536_870_912
      modifies `jars, `temps, `run
      ensures Valid() && old(run) <= run
      ensures ok <==> Acceptable(sha1, expected, hashed) && replaceWorks
      ensures ok ==> jars == old(jars)[version := hashed] && temps == old(temps) - {id}
      ensures !ok ==> jars == old(jars) && temps == old(temps)
      ensures !ok ==> id in Machine().downloads && Machine().downloads[id].phase.Failing?
    {
      AcceptableIff(sha1, expected, hashed);
      hide Legal, Exec, Lower, Matches, Acceptable, OnDisk;
      Note(Finish(id));
      if total == 0 || !Matches(sha1, expected, hashed) {
        return false;
      }
      if !replaceWorks {
        Note(Break(id));
        return false;
      }
      PutInPlace(id, version);
      ok := true;
    }

    /** Downloads into the cache; the rename and the removal of the temporary file may fail. */
    method DownloadTo(version: string, expected: Option<string>, responses: seq<Response>,
                      replaceWorks: bool, unlinkWorks: bool)
      returns (r: Result, ghost id: nat)
      requires Valid()
      modifies `jars, `temps, `next, `run
      ensures Valid() && old(run) <= run
      ensures r.Ok? <==> (Body(responses, []).Some? && Acceptable(sha1, expected, Body(responses, []).value)
                          && replaceWorks)
      ensures r.Ok? && expected.Some? && expected.value != "" ==>
                version in jars && Lower(sha1(jars[version])) == Lower(expected.value)
      ensures Body(responses, []).Some? && Body(responses, []).value != [] && replaceWorks ==>
                (r.Error? <==> && expected.Some? && expected.value != ""
                               && Lower(sha1(Body(responses, []).value)) != Lower(expected.value))
      ensures r.Ok? ==> r.size == |Body(responses, []).value| && jars == old(jars)[version := Body(responses, []).value]
      ensures r.Error? ==> jars == old(jars)
      ensures id !in old(temps) && temps - {id} == old(temps)
      ensures r.Ok? || unlinkWorks ==> temps == old(temps)
    {
      hide Legal, Exec, OnDisk, Body, Lower;
      var part := Open(version, expected);
      id := part;
      var hashed, total, failed := ReadBody(part, version, expected, responses);
      if !failed {
        var ok := Commit(part, version, expected, hashed, total, replaceWorks);
        if ok {
          return Ok(total), id;
        }
      }
      Discard(part, unlinkWorks);
      r := Error;
    }

    /** Flags the vanilla row of the latest release, and only that one. */
    method MarkLatest(latest: string)
      modifies `rows
      ensures rows == Marked(old(rows), latest)
    {
      for i := 0 to |rows|
        invariant |rows| == |old(rows)|
        invariant forall j :: 0 <= j < i ==> rows[j] == MarkedRow(old(rows)[j], latest)
        invariant forall j :: i <= j < |rows| ==> rows[j] == old(rows)[j]
      {
        var row := rows[i];
        if row.vanilla {
          rows := rows[i := row.(isLatest := row.version == latest)];
        }
      }
    }

    method Upsert(version: string, info: Info, size: nat)
      modifies `rows
      ensures rows == Upserted(old(rows), version, info, size)
    {
      var i := RowAt(rows, version);
      if i == |rows| {
        rows := rows + [JarRow(true, version, "", None, 0, false)];
      }
      rows := rows[i := rows[i].(url := info.url, sha1 := info.sha1, size := size)];
    }

    /** Downloads a version and records it.  `info` is what the metadata says, `latest` the
        latest release if the manifest could be read afterwards. */
    method DownloadServerJar(version: string, info: Option<Info>, responses: seq<Response>,
                             replaceWorks: bool, unlinkWorks: bool, latest: Option<string>)
      returns (r: Result)
      requires Valid() && Settled()
      modifies this
      ensures Valid() && Settled() && old(run) <= run
      ensures r.Ok? <==> (info.Some? && Body(responses, []).Some? && replaceWorks
                          && Acceptable(sha1, info.value.sha1, Body(responses, []).value))
      ensures r.Ok? ==> jars == old(jars)[version := Body(responses, []).value]
      ensures r.Ok? ==> rows == Refreshed(old(rows), version, info.value, |Body(responses, []).value|, latest)
      ensures r.Error? ==> rows == old(rows) && jars == old(jars)
    {
      hide Legal, Exec, OnDisk, Body, Acceptable, OneRowEach, OneLatest, Describes;
      if info.None? {
        return Error;
      }
      ghost var part;
      r, part := DownloadTo(version, info.value.sha1, responses, replaceWorks, unlinkWorks);
      if r.Error? {
        return;
      }
      RefreshKeeps(sha1, rows, old(jars), version, info.value, Body(responses, []).value, latest);
      Upsert(version, info.value, r.size);
      if latest.Some? {
        MarkLatest(latest.value);
      }
    }
  }
}
