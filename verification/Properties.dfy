/** server.properties: a printer, a parser, and the laws that tie them. */
module Properties {
  import opened Text

  // ----- Lines ---------------------------------------------------------------------------

  /** Text-mode reading: every line break becomes a newline. */
  function Universal(text: string): (r: string)
    ensures '\r' !in r
  {
    if text == [] then []
    else if text[0] == '\r' then
      ['\n'] + Universal(if |text| > 1 && text[1] == '\n' then text[2..] else text[1..])
    else [text[0]] + Universal(text[1..])
  }

  function BreakAt(text: string): (i: nat)
    ensures i <= |text| && '\n' !in text[..i] && (i < |text| ==> text[i] == '\n')
  {
    if text == [] || text[0] == '\n' then 0 else 1 + BreakAt(text[1..])
  }

  /** readlines(), without the newlines. */
  function Lines(text: string): (ls: seq<string>)
    ensures forall l :: l in ls ==> '\n' !in l
    decreases |text|
  {
    if text == [] then []
    else var i := BreakAt(text); [text[..i]] + (if i == |text| then [] else Lines(text[i + 1..]))
  }

  /** Each line with its newline. */
  function Unlines(ls: seq<string>): string {
    if ls == [] then [] else ls[0] + "\n" + Unlines(ls[1..])
  }

  predicate Unbroken(s: string) {
    '\n' !in s && '\r' !in s
  }

  lemma BreakAtLine(l: string, rest: string)
    requires '\n' !in l
    ensures BreakAt(l + "\n" + rest) == |l|
    decreases |l|
  {
    var t := l + "\n" + rest;
    if l == [] {
      assert t[0] == '\n';
    } else {
      assert t[1..] == l[1..] + "\n" + rest;
      BreakAtLine(l[1..], rest);
    }
  }

  lemma {:induction false} LinesOfUnlines(ls: seq<string>)
    requires forall l :: l in ls ==> '\n' !in l
    ensures Lines(Unlines(ls)) == ls
  {
    if ls != [] {
      var rest := Unlines(ls[1..]);
      BreakAtLine(ls[0], rest);
      var t := Unlines(ls);
      assert t[..|ls[0]|] == ls[0] && t[|ls[0]| + 1..] == rest;
      LinesOfUnlines(ls[1..]);
    }
  }

  lemma {:induction false} UniversalKeeps(text: string)
    requires '\r' !in text
    ensures Universal(text) == text
  {
    if text != [] {
      assert text[0] != '\r';
      UniversalKeeps(text[1..]);
    }
  }

  lemma {:induction false} UnlinesUnbroken(ls: seq<string>)
    requires forall l :: l in ls ==> '\r' !in l
    ensures '\r' !in Unlines(ls)
  {
    if ls != [] {
      UnlinesUnbroken(ls[1..]);
    }
  }

  /** What reading the file yields, line by line. */
  function FileLines(text: string): (ls: seq<string>)
    ensures forall l :: l in ls ==> Unbroken(l)
  {
    var u := Universal(text);
    LinesKeepOut(u, '\r');
    Lines(u)
  }

  lemma LinesKeepOut(text: string, c: char)
    requires c !in text
    ensures forall l :: l in Lines(text) ==> c !in l
    decreases |text|
  {
    if text != [] {
      var i := BreakAt(text);
      if i < |text| {
        LinesKeepOut(text[i + 1..], c);
      }
    }
  }

  lemma FileLinesOfUnlines(ls: seq<string>)
    requires forall l :: l in ls ==> Unbroken(l)
    ensures FileLines(Unlines(ls)) == ls
  {
    UnlinesUnbroken(ls);
    UniversalKeeps(Unlines(ls));
    LinesOfUnlines(ls);
  }

  /** The lines with their newlines are the text, with a newline at its end. */
  lemma {:induction false} LinesAre(text: string)
    ensures Unlines(Lines(text)) == if text == [] || text[|text| - 1] == '\n' then text else text + "\n"
    decreases |text|
  {
    if text != [] {
      var i := BreakAt(text);
      if i == |text| {
        assert text[..i] == text && text[|text| - 1] in text;
        UnlinesCons(text, []);
        assert Lines(text) == [text] + [];
        hide Lines, Unlines;
        assert text + "\n" + "" == text + "\n";
      } else {
        var rest := text[i + 1..];
        LinesAre(rest);
        UnlinesCons(text[..i], Lines(rest));
        assert Lines(text) == [text[..i]] + Lines(rest);
        hide Lines, Unlines;
        BrokenUp(text, i);
        if rest == [] {
          assert text[|text| - 1] == '\n';
        } else {
          assert rest[|rest| - 1] == text[|text| - 1];
        }
      }
    }
  }

  lemma BrokenUp(text: string, i: nat)
    requires i < |text| && text[i] == '\n'
    ensures text == text[..i] + "\n" + text[i + 1..]
    ensures text[..i] + "\n" + (text[i + 1..] + "\n") == text + "\n"
  {
  }

  lemma UnlinesCons(l: string, ls: seq<string>)
    ensures Unlines([l] + ls) == l + "\n" + Unlines(ls)
  {
    assert ([l] + ls)[1..] == ls;
  }

  /** Each of the three line breaks is read as one newline. */
  lemma {:induction false} BreaksAre(a: string, b: string)
    requires '\r' !in a
    ensures Universal(a + "\r\n" + b) == a + "\n" + Universal(b)
    ensures b == [] || b[0] != '\n' ==> Universal(a + "\r" + b) == a + "\n" + Universal(b)
    ensures Universal(a + b) == a + Universal(b)
    decreases |a|
  {
    if a == [] {
      AtBreak(b);
    } else {
      assert a[0] in a && '\r' !in a[1..];
      hide Universal;
      BreaksAre(a[1..], b);
      UniversalCons(a, "\r\n" + b);
      UniversalCons(a, "\r" + b);
      UniversalCons(a, b);
      Regrouped(a, b);
    }
  }

  lemma AtBreak(b: string)
    ensures Universal("" + "\r\n" + b) == "" + "\n" + Universal(b)
    ensures b == [] || b[0] != '\n' ==> Universal("" + "\r" + b) == "" + "\n" + Universal(b)
    ensures Universal("" + b) == "" + Universal(b)
  {
    hide Universal;
    var t, u := "\r\n" + b, "\r" + b;
    BreakUnfolds(t);
    BreakUnfolds(u);
    assert t[2..] == b && t == "" + "\r\n" + b;
    assert u[1..] == b && u == "" + "\r" + b && (b != [] ==> u[1] == b[0]);
    assert "" + b == b && "" + Universal(b) == Universal(b) && "" + "\n" + Universal(b) == ['\n'] + Universal(b);
  }

  lemma BreakUnfolds(t: string)
    requires t != [] && t[0] == '\r'
    ensures Universal(t) == ['\n'] + Universal(if |t| > 1 && t[1] == '\n' then t[2..] else t[1..])
  {
  }

  lemma UniversalCons(a: string, rest: string)
    requires a != [] && a[0] != '\r'
    ensures Universal(a + rest) == [a[0]] + Universal(a[1..] + rest)
  {
    assert (a + rest)[1..] == a[1..] + rest;
  }

  lemma Regrouped(a: string, b: string)
    requires a != []
    ensures a + "\r\n" + b == a + ("\r\n" + b) && a + "\r" + b == a + ("\r" + b)
    ensures a[1..] + "\r\n" + b == a[1..] + ("\r\n" + b) && a[1..] + "\r" + b == a[1..] + ("\r" + b)
    ensures forall u: string :: [a[0]] + (a[1..] + "\n" + u) == a + "\n" + u
    ensures forall u: string :: [a[0]] + (a[1..] + u) == a + u
  {
  }

  // ----- Dictionaries --------------------------------------------------------------------

  /** A dict: keys in insertion order, each with a value. */
  datatype Dict = Dict(keys: seq<string>, values: map<string, string>)

  ghost predicate Proper(d: Dict) {
    && (forall k :: k in d.keys <==> k in d.values)
    && forall i, j :: 0 <= i < j < |d.keys| ==> d.keys[i] != d.keys[j]
  }

  /** d[k] = v: a key already there keeps its place. */
  function Put(d: Dict, k: string, v: string): (r: Dict)
    ensures Proper(d) ==> Proper(r)
  {
    Dict(if k in d.values then d.keys else d.keys + [k], d.values[k := v])
  }

  // ----- Parsing -------------------------------------------------------------------------

  predicate IsComment(line: string) {
    var t := Strip(line); t != [] && t[0] == '#'
  }

  predicate IsHeader(line: string) {
    IsComment(line) || Strip(line) == []
  }

  predicate IsEntry(line: string) {
    '=' in line && !IsComment(line)
  }

  function EqualsAt(line: string): (i: nat)
    requires '=' in line
    ensures i < |line| && line[i] == '=' && '=' !in line[..i]
  {
    if line[0] == '=' then 0 else 1 + EqualsAt(line[1..])
  }

  function KeyOf(line: string): string
    requires '=' in line
  {
    Strip(line[..EqualsAt(line)])
  }

  function ValueOf(line: string): string
    requires '=' in line
  {
    line[EqualsAt(line) + 1..]
  }

  /** What the reading loop has gathered after `lines`. */
  function Parse(lines: seq<string>): (d: Dict)
    ensures Proper(d)
  {
    if lines == [] then Dict([], map[])
    else
      var d, l := Parse(lines[..|lines| - 1]), lines[|lines| - 1];
      if IsEntry(l) then Put(d, KeyOf(l), ValueOf(l)) else d
  }

  /** The first character of the line that is not white space is a hash. */
  ghost predicate Hashed(line: string) {
    exists i :: 0 <= i < |line| && line[i] == '#' && forall j :: 0 <= j < i ==> IsSpace(line[j])
  }

  lemma IsCommentIff(line: string)
    ensures IsComment(line) <==> Hashed(line)
  {
    assert !IsSpace('#');
    var a, b := StripSplits(line);
    hide IsSpace, Strip;
    var t := Strip(line);
    if t != [] {
      FirstVisible(line, a, t, b);
      hide Hashed;
    } else {
      assert line == a + b;
      assert forall j :: 0 <= j < |line| ==> IsSpace(line[j]);
    }
  }

  lemma FirstVisible(line: string, a: string, t: string, b: string)
    requires line == a + t + b && t != [] && !IsSpace(t[0]) && !IsSpace('#')
    requires forall i :: 0 <= i < |a| ==> IsSpace(a[i])
    ensures Hashed(line) <==> t[0] == '#'
  {
    hide IsSpace;
    assert line[|a|] == t[0] && forall j :: 0 <= j < |a| ==> line[j] == a[j];
    if Hashed(line) {
      var i :| 0 <= i < |line| && line[i] == '#' && forall j :: 0 <= j < i ==> IsSpace(line[j]);
      assert i == |a|;
    }
  }

  /** What a line of the file means: a comment, a blank line, or an entry whose key is what stands
      before its first equals sign, trimmed, and whose value is all that follows. */
  lemma LineMeans(line: string)
    ensures IsHeader(line) <==> Hashed(line) || forall i :: 0 <= i < |line| ==> IsSpace(line[i])
    ensures IsEntry(line) <==> '=' in line && !Hashed(line)
    ensures forall i :: 0 <= i < |line| && line[i] == '=' && '=' !in line[..i] ==>
              KeyOf(line) == Strip(line[..i]) && ValueOf(line) == line[i + 1..]
  {
    IsCommentIff(line);
    var a, b := StripSplits(line);
    hide IsSpace, Strip, Hashed;
    if Strip(line) == [] {
      assert line == a + b;
    } else {
      assert line[|a|] == Strip(line)[0];
    }
    forall i | 0 <= i < |line| && line[i] == '=' && '=' !in line[..i] ensures i == EqualsAt(line) {
      FirstIs(line, i, EqualsAt(line));
    }
  }

  lemma FirstIs(line: string, i: nat, e: nat)
    requires i < |line| && line[i] == '=' && '=' !in line[..i]
    requires e < |line| && line[e] == '=' && '=' !in line[..e]
    ensures i == e
  {
    assert forall k :: 0 <= k < i ==> line[..i][k] == line[k];
    assert forall k :: 0 <= k < e ==> line[..e][k] == line[k];
  }

  // ----- Printing ------------------------------------------------------------------------

  /** The leading comment and blank lines. */
  function Header(lines: seq<string>): seq<string> {
    if lines == [] || !IsHeader(lines[0]) then [] else [lines[0]] + Header(lines[1..])
  }

  lemma {:induction false} HeaderLeads(lines: seq<string>)
    ensures Header(lines) <= lines && forall l :: l in Header(lines) ==> IsHeader(l)
    ensures |Header(lines)| < |lines| ==> !IsHeader(lines[|Header(lines)|])
    decreases |lines|
  {
    hide IsHeader;
    if lines != [] {
      HeaderLeads(lines[1..]);
      assert [lines[0]] + lines[1..] == lines;
    }
  }

  /** The keys of `wanted` that `lines` set, in order of first appearance. */
  function KeysIn(lines: seq<string>, wanted: map<string, string>): (ks: seq<string>)
    ensures forall k :: k in ks ==> k in wanted
  {
    if lines == [] then []
    else
      var ks, l := KeysIn(lines[..|lines| - 1], wanted), lines[|lines| - 1];
      if IsEntry(l) && KeyOf(l) in wanted && KeyOf(l) !in ks then ks + [KeyOf(l)] else ks
  }

  /** `keys` without those in `seen`. */
  function NotIn(keys: seq<string>, seen: seq<string>): (r: seq<string>)
    ensures forall k :: k in r <==> k in keys && k !in seen
  {
    if keys == [] then []
    else NotIn(keys[..|keys| - 1], seen) + (if keys[|keys| - 1] in seen then [] else [keys[|keys| - 1]])
  }

  /** The order in which `d` is written over `lines`: old keys as they first appeared, then new ones. */
  function Order(lines: seq<string>, d: Dict): (ks: seq<string>)
    requires Proper(d)
    ensures forall k :: k in ks <==> k in d.keys
    ensures ks == [] <==> d.keys == []
  {
    var earlier := KeysIn(lines, d.values);
    var ks := earlier + NotIn(d.keys, earlier);
    assert |ks| > 0 ==> ks[0] in ks;
    assert |d.keys| > 0 ==> d.keys[0] in ks;
    ks
  }

  function Entry(d: Dict, k: string): string
    requires k in d.values
  {
    k + "=" + d.values[k]
  }

  function Entries(d: Dict, ks: seq<string>): (es: seq<string>)
    requires forall k :: k in ks ==> k in d.values
    ensures es == [] <==> ks == []
  {
    if ks == [] then [] else Entries(d, ks[..|ks| - 1]) + [Entry(d, ks[|ks| - 1])]
  }

  function Printed(lines: seq<string>, d: Dict): seq<string>
    requires Proper(d)
  {
    Header(lines) + Entries(d, Order(lines, d))
  }

  /** "\n".join(out) */
  function Join(out: seq<string>): string {
    if |out| <= 1 then (if out == [] then "" else out[0])
    else out[0] + "\n" + Join(out[1..])
  }

  /** Joined lines and a final newline are the lines with their newlines, except that no
      lines at all make one blank line. */
  lemma {:induction false} JoinedLines(out: seq<string>)
    ensures Join(out) + "\n" == if out == [] then "\n" else Unlines(out)
  {
    if |out| == 1 {
      assert Unlines(out[1..]) == [];
    } else if |out| > 1 {
      JoinedLines(out[1..]);
    }
  }

  function Write(text: string, d: Dict): string
    requires Proper(d)
  {
    Join(Printed(FileLines(text), d)) + "\n"
  }

  function Read(text: string): (d: Dict)
    ensures Proper(d)
  {
    Parse(FileLines(text))
  }

  lemma {:induction false} EntriesAre(d: Dict, ks: seq<string>)
    requires forall k :: k in ks ==> k in d.values
    ensures |Entries(d, ks)| == |ks|
    ensures forall i :: 0 <= i < |ks| ==> Entries(d, ks)[i] == ks[i] + "=" + d.values[ks[i]]
  {
    if ks != [] {
      EntriesAre(d, ks[..|ks| - 1]);
    }
  }

  /** What a write puts in the file: the header lines, and then a line for each key in order, the
      key, an equals sign and the value, each line with its newline; one blank line if there is
      neither. */
  lemma WrittenText(text: string, d: Dict) returns (entries: seq<string>)
    requires Proper(d)
    ensures var ks, header := Order(FileLines(text), d), Header(FileLines(text));
            && |entries| == |ks|
            && (forall i :: 0 <= i < |ks| ==> entries[i] == ks[i] + "=" + d.values[ks[i]])
            && Write(text, d) == if header + entries == [] then "\n" else Unlines(header + entries)
  {
    var lines := FileLines(text);
    entries := Entries(d, Order(lines, d));
    EntriesAre(d, Order(lines, d));
    JoinedLines(Printed(lines, d));
    hide Header, FileLines, Order, Unlines, Join, Entries;
  }

  // ----- Line-safe entries ---------------------------------------------------------------

  predicate SafeKey(k: string) {
    Trimmed(k) && '=' !in k && (k != [] ==> k[0] != '#') && Unbroken(k)
  }

  ghost predicate LineSafe(d: Dict) {
    forall k :: k in d.values ==> SafeKey(k) && Unbroken(d.values[k])
  }

  lemma {:induction false} StripKeepsFirst(s: string)
    requires s != [] && !IsSpace(s[0])
    ensures Strip(s) != [] && Strip(s)[0] == s[0]
  {
    assert StripLeft(s) == s;
    var r := StripRight(s);
    assert forall i :: |r| <= i < |s| ==> IsSpace(s[i]);
  }

  lemma EqualsAtEntry(k: string, v: string)
    requires '=' !in k
    ensures '=' in k + "=" + v && EqualsAt(k + "=" + v) == |k|
  {
    var line := k + "=" + v;
    assert line[|k|] == '=';
    var e := EqualsAt(line);
    assert forall i :: 0 <= i < |k| ==> line[i] == k[i] && k[i] in k;
    assert forall i :: 0 <= i < e ==> line[i] == line[..e][i] && line[..e][i] in line[..e];
  }

  /** A safe entry is read back as it was written. */
  lemma EntryReadsBack(k: string, v: string)
    requires SafeKey(k) && Unbroken(v)
    ensures var line := k + "=" + v;
            IsEntry(line) && !IsHeader(line) && KeyOf(line) == k && ValueOf(line) == v && Unbroken(line)
  {
    var line := k + "=" + v;
    EqualsAtEntry(k, v);
    assert line[..|k|] == k && line[|k| + 1..] == v;
    StripOfTrimmed(k);
    assert line[0] == if k == [] then '=' else k[0];
    StripKeepsFirst(line);
  }

  lemma HeaderIsNoEntry(line: string)
    requires IsHeader(line)
    ensures !IsEntry(line)
  {
    if Strip(line) == [] {
      StripEmpty(line);
    }
  }

  lemma StripEmpty(line: string)
    requires Strip(line) == []
    ensures '=' !in line
  {
    var l := StripLeft(line);
    assert forall i :: 0 <= i < |line| - |l| ==> IsSpace(line[i]);
    assert forall i :: 0 <= i < |l| ==> IsSpace(l[i]) && l[i] == line[|line| - |l| + i];
  }

  // ----- Reading back what was written ---------------------------------------------------

  ghost predicate Distinct(ks: seq<string>) {
    forall i, j :: 0 <= i < j < |ks| ==> ks[i] != ks[j]
  }

  function Only(values: map<string, string>, ks: seq<string>): map<string, string> {
    map k | k in ks && k in values :: values[k]
  }

  lemma {:induction false} ParseHeader(h: seq<string>)
    requires forall l :: l in h ==> IsHeader(l)
    ensures Parse(h) == Dict([], map[])
  {
    if h != [] {
      HeaderIsNoEntry(h[|h| - 1]);
      ParseHeader(h[..|h| - 1]);
    }
  }

  lemma OnlySnoc(values: map<string, string>, front: seq<string>, k: string)
    requires k in values
    ensures Only(values, front + [k]) == Only(values, front)[k := values[k]]
  {
  }

  lemma OnlyCons(values: map<string, string>, k: string, rest: seq<string>, base: map<string, string>)
    requires k in values
    ensures base[k := values[k]] + Only(values, rest) == base + Only(values, [k] + rest)
  {
  }

  lemma ParseSnoc(lines: seq<string>, l: string)
    ensures Parse(lines + [l]) == if IsEntry(l) then Put(Parse(lines), KeyOf(l), ValueOf(l)) else Parse(lines)
  {
    assert (lines + [l])[..|lines|] == lines;
  }

  lemma {:induction false} ParsePrinted(h: seq<string>, d: Dict, ks: seq<string>)
    requires forall l :: l in h ==> IsHeader(l)
    requires LineSafe(d) && Distinct(ks) && forall k :: k in ks ==> k in d.values
    ensures Parse(h + Entries(d, ks)) == Dict(ks, Only(d.values, ks))
    decreases |ks|
  {
    hide Parse, Only, IsEntry, KeyOf, ValueOf, IsHeader, SafeKey, LineSafe, Distinct, Put, Entry;
    if ks == [] {
      assert h + Entries(d, ks) == h;
      ParseHeader(h);
      OnlyNothing(d.values);
    } else {
      var front, k := ks[..|ks| - 1], ks[|ks| - 1];
      DistinctFront(ks);
      ParsePrinted(h, d, front);
      EntrySafe(d, k);
      ParseSnoc(h + Entries(d, front), Entry(d, k));
      assert h + Entries(d, ks) == h + Entries(d, front) + [Entry(d, k)];
      PutNew(d.values, front, k);
      assert front + [k] == ks;
    }
  }

  lemma OnlyNothing(values: map<string, string>)
    ensures Only(values, []) == map[]
  {
  }

  lemma DistinctFront(ks: seq<string>)
    requires ks != [] && Distinct(ks)
    ensures Distinct(ks[..|ks| - 1]) && ks[|ks| - 1] !in ks[..|ks| - 1]
  {
  }

  lemma EntrySafe(d: Dict, k: string)
    requires LineSafe(d) && k in d.values
    ensures var line := Entry(d, k);
            && IsEntry(line) && KeyOf(line) == k && ValueOf(line) == d.values[k]
            && !IsHeader(line) && Unbroken(line)
  {
    EntryReadsBack(k, d.values[k]);
  }

  lemma PutNew(values: map<string, string>, front: seq<string>, k: string)
    requires k in values && k !in front
    ensures Put(Dict(front, Only(values, front)), k, values[k]) == Dict(front + [k], Only(values, front + [k]))
  {
    OnlySnoc(values, front, k);
  }

  lemma {:induction false} KeysInDistinct(lines: seq<string>, wanted: map<string, string>)
    ensures Distinct(KeysIn(lines, wanted))
  {
    hide IsEntry, KeyOf;
    if lines != [] {
      KeysInDistinct(lines[..|lines| - 1], wanted);
    }
  }

  lemma {:induction false} NotInDistinct(keys: seq<string>, seen: seq<string>)
    requires Distinct(keys)
    ensures Distinct(NotIn(keys, seen))
  {
    if keys != [] {
      NotInDistinct(keys[..|keys| - 1], seen);
    }
  }

  lemma OrderDistinct(lines: seq<string>, d: Dict)
    requires Proper(d)
    ensures Distinct(Order(lines, d))
  {
    var first := KeysIn(lines, d.values);
    var rest := NotIn(d.keys, first);
    KeysInDistinct(lines, d.values);
    NotInDistinct(d.keys, first);
    forall i, j | 0 <= i < j < |first + rest| ensures (first + rest)[i] != (first + rest)[j] {
      if i < |first| <= j {
        assert first[i] in first && rest[j - |first|] in rest;
      }
    }
  }

  lemma PrintedUnbroken(lines: seq<string>, d: Dict, l: string)
    requires Proper(d) && LineSafe(d) && l in Printed(lines, d) && forall x :: x in lines ==> Unbroken(x)
    ensures Unbroken(l)
  {
    var h, ks := Header(lines), Order(lines, d);
    var es := Entries(d, ks);
    assert Printed(lines, d) == h + es;
    hide Printed, Order, SafeKey, Unbroken, LineSafe;
    if l in h {
      HeaderLeads(lines);
      assert l in lines;
    } else {
      EntryOf(d, ks, l);
    }
  }

  lemma {:induction false} EntryOf(d: Dict, ks: seq<string>, l: string)
    requires (forall k :: k in ks ==> k in d.values) && LineSafe(d) && l in Entries(d, ks)
    ensures !IsHeader(l) && Unbroken(l)
    decreases |ks|
  {
    hide IsHeader, Unbroken, LineSafe, Entry;
    EntrySafe(d, ks[|ks| - 1]);
    if l != Entry(d, ks[|ks| - 1]) {
      EntryOf(d, ks[..|ks| - 1], l);
    }
  }

  /** The file after a write, line by line. */
  lemma LinesAfterWrite(text: string, d: Dict)
    requires Proper(d) && LineSafe(d)
    ensures var out := Printed(FileLines(text), d);
            FileLines(Write(text, d)) == if out == [] then [""] else out
  {
    hide Printed, LineSafe, Unlines, FileLines;
    var lines := FileLines(text);
    var out := Printed(lines, d);
    forall l | l in out ensures Unbroken(l) {
      PrintedUnbroken(lines, d, l);
    }
    JoinedLines(out);
    FileLinesOfUnlines(out);
    BlankLine();
  }

  lemma BlankLine()
    ensures FileLines("\n") == [""]
  {
    assert Unlines([""]) == "\n";
    FileLinesOfUnlines([""]);
  }

  /** `keys` without those that `wanted` lacks. */
  function Kept(keys: seq<string>, wanted: map<string, string>): (r: seq<string>)
    ensures forall k :: k in r <==> k in keys && k in wanted
  {
    if keys == [] then []
    else
      var front, k := Kept(keys[..|keys| - 1], wanted), keys[|keys| - 1];
      if k in wanted then front + [k] else front
  }

  lemma KeptSnoc(keys: seq<string>, k: string, wanted: map<string, string>)
    ensures k in wanted ==> Kept(keys + [k], wanted) == Kept(keys, wanted) + [k]
    ensures k !in wanted ==> Kept(keys + [k], wanted) == Kept(keys, wanted)
  {
    assert (keys + [k])[..|keys|] == keys;
  }

  lemma {:induction false} KeysInKept(lines: seq<string>, wanted: map<string, string>)
    ensures KeysIn(lines, wanted) == Kept(Parse(lines).keys, wanted)
  {
    if lines != [] {
      var front, l := lines[..|lines| - 1], lines[|lines| - 1];
      KeysInKept(front, wanted);
      if IsEntry(l) {
        var k := KeyOf(l);
        hide IsComment, IsEntry, KeyOf, ValueOf, Kept;
        KeptSnoc(Parse(front).keys, k, wanted);
        assert k in Parse(front).keys <==> k in Parse(front).values;
      }
    }
  }

  lemma {:induction false} NotInAgrees(keys: seq<string>, a: seq<string>, b: seq<string>)
    requires forall k :: k in keys ==> (k in a <==> k in b)
    ensures NotIn(keys, a) == NotIn(keys, b)
  {
    if keys != [] {
      NotInAgrees(keys[..|keys| - 1], a, b);
    }
  }

  /** The order a write produces: the old file's keys that are still wanted, as they stood,
      then the keys it did not have. */
  function Reordered(earlier: Dict, d: Dict): seq<string> {
    Kept(earlier.keys, d.values) + NotIn(d.keys, earlier.keys)
  }

  lemma OrderIsReordered(lines: seq<string>, d: Dict)
    requires Proper(d)
    ensures Order(lines, d) == Reordered(Parse(lines), d)
  {
    KeysInKept(lines, d.values);
    hide Parse, KeysIn, Kept, NotIn;
    NotInAgrees(d.keys, KeysIn(lines, d.values), Parse(lines).keys);
  }

  /** Round trip: over any old file, what is read back is what was written, in the order of
      first appearance of the old keys and then the new ones. */
  lemma ReadAfterWrite(text: string, d: Dict)
    requires Proper(d) && LineSafe(d)
    ensures Read(Write(text, d)) == Dict(Reordered(Read(text), d), d.values)
  {
    ReadAfterWriteInOrder(text, d);
    OrderIsReordered(FileLines(text), d);
  }

  lemma ReadAfterWriteInOrder(text: string, d: Dict)
    requires Proper(d) && LineSafe(d)
    ensures Read(Write(text, d)) == Dict(Order(FileLines(text), d), d.values)
  {
    hide IsEntry, IsHeader, Write, Parse, FileLines, Order, LineSafe, Distinct;
    var lines := FileLines(text);
    var ks := Order(lines, d);
    LinesAfterWrite(text, d);
    OrderDistinct(lines, d);
    HeaderLeads(lines);
    ParsePrinted(Header(lines), d, ks);
    assert Only(d.values, ks) == d.values;
    BlankIsHeader();
    ParseHeader([""]);
  }

  lemma BlankIsHeader()
    ensures IsHeader("")
  {
  }

  /** Whatever was read is line-safe. */
  lemma {:induction false} ParseIsSafe(lines: seq<string>)
    requires forall l :: l in lines ==> Unbroken(l)
    ensures LineSafe(Parse(lines))
  {
    if lines != [] {
      var front, l := lines[..|lines| - 1], lines[|lines| - 1];
      hide IsEntry, KeyOf, ValueOf, SafeKey, Unbroken, LineSafe, Put;
      ParseIsSafe(front);
      if IsEntry(l) {
        KeyIsSafe(l);
        PutIsSafe(Parse(front), KeyOf(l), ValueOf(l));
      }
    } else {
      hide SafeKey, Unbroken;
    }
  }

  lemma PutIsSafe(d: Dict, k: string, v: string)
    requires LineSafe(d) && SafeKey(k) && Unbroken(v)
    ensures LineSafe(Put(d, k, v))
  {
    hide SafeKey, Unbroken;
  }

  lemma KeyIsSafe(line: string)
    requires IsEntry(line) && Unbroken(line)
    ensures SafeKey(KeyOf(line)) && Unbroken(ValueOf(line))
  {
    var left := line[..EqualsAt(line)];
    var l := StripLeft(left);
    var k := KeyOf(line);
    StripIsTrimmed(left);
    assert forall c :: c in k ==> c in left;
    assert forall c :: c in left ==> c in line;
    if k != [] {
      assert k[0] == l[0];
      StripOfWhole(line, left);
    }
  }

  /** The first visible character of a line is that of its key. */
  lemma StripOfWhole(line: string, left: string)
    requires left <= line && Strip(left) != []
    ensures Strip(line) != [] && Strip(line)[0] == Strip(left)[0]
    decreases |left|
  {
    if left == [] {
    } else if IsSpace(left[0]) {
      assert left[1..] <= line[1..];
      assert Strip(line) == Strip(line[1..]) && Strip(left) == Strip(left[1..]);
      StripOfWhole(line[1..], left[1..]);
    } else {
      StripKeepsFirst(line);
      StripKeepsFirst(left);
    }
  }

  lemma ReadIsSafe(text: string)
    ensures LineSafe(Read(text))
  {
    ParseIsSafe(FileLines(text));
  }

  /** A write is read back with the same keys and values if and only if it was line-safe. */
  lemma RoundTripIff(text: string, d: Dict)
    requires Proper(d)
    ensures Read(Write(text, d)).values == d.values <==> LineSafe(d)
  {
    ReadIsSafe(Write(text, d));
    if LineSafe(d) {
      ReadAfterWrite(text, d);
    }
  }

  // ----- Merging -------------------------------------------------------------------------

  lemma {:induction false} KeysInParsed(lines: seq<string>, wanted: map<string, string>)
    requires forall k :: k in Parse(lines).values ==> k in wanted
    ensures KeysIn(lines, wanted) == Parse(lines).keys
  {
    if lines != [] {
      var front := lines[..|lines| - 1];
      assert forall k :: k in Parse(front).values ==> k in Parse(lines).values;
      KeysInParsed(front, wanted);
    }
  }

  /** dict(old); .update(updates) */
  function Merge(d: Dict, updates: Dict): (r: Dict)
    requires Proper(updates)
    ensures Proper(d) ==> Proper(r)
    decreases |updates.keys|
  {
    MergeFrom(d, updates.keys, updates.values)
  }

  function MergeFrom(d: Dict, ks: seq<string>, values: map<string, string>): (r: Dict)
    requires forall k :: k in ks ==> k in values
    ensures Proper(d) ==> Proper(r)
    decreases |ks|
  {
    if ks == [] then d else MergeFrom(Put(d, ks[0], values[ks[0]]), ks[1..], values)
  }

  lemma {:induction false} MergeFromMeans(d: Dict, ks: seq<string>, values: map<string, string>)
    requires forall k :: k in ks ==> k in values
    ensures var r := MergeFrom(d, ks, values);
            && d.keys <= r.keys && r.values == d.values + Only(values, ks)
    decreases |ks|
  {
    if ks != [] {
      var d1 := Put(d, ks[0], values[ks[0]]);
      MergeFromMeans(d1, ks[1..], values);
      assert [ks[0]] + ks[1..] == ks;
      OnlyCons(values, ks[0], ks[1..], d.values);
    }
  }

  /** A merge changes exactly the updated keys: every other key keeps its value, all old
      keys keep their order, and the file reads back as the merged dictionary. */
  lemma MergeChangesOnlyUpdates(text: string, updates: Dict)
    requires Proper(updates) && LineSafe(updates)
    ensures var before, merged := Read(text), Merge(Read(text), updates);
            && merged.values == before.values + updates.values
            && before.keys <= merged.keys
            && Read(Write(text, merged)) == merged
  {
    hide Read, Write, LineSafe, MergeFrom, Only;
    var before, merged := Read(text), Merge(Read(text), updates);
    MergeFromMeans(before, updates.keys, updates.values);
    OnlyAll(updates);
    ReadIsSafe(text);
    MergedIsSafe(before, updates, merged);
    ExtendedReadsBack(text, merged);
  }

  lemma OnlyAll(d: Dict)
    requires Proper(d)
    ensures Only(d.values, d.keys) == d.values
  {
  }

  /** Writing a dictionary that only adds keys to what the file has reads back as is. */
  lemma ExtendedReadsBack(text: string, d: Dict)
    requires Proper(d) && LineSafe(d) && Read(text).keys <= d.keys
    ensures Read(Write(text, d)) == d
  {
    var before := Read(text).keys;
    forall k | k in Read(text).values ensures k in d.values {
      assert k in before;
    }
    hide Write, FileLines, LineSafe, SafeKey, Parse;
    ReadAfterWriteInOrder(text, d);
    KeysInParsed(FileLines(text), d.values);
    NotInTail(d.keys, before);
  }

  lemma MergedIsSafe(a: Dict, b: Dict, c: Dict)
    requires LineSafe(a) && LineSafe(b) && c.values == a.values + b.values
    ensures LineSafe(c)
  {
  }

  lemma {:induction false} NotInTail(keys: seq<string>, earlier: seq<string>)
    requires Distinct(keys) && earlier <= keys
    ensures earlier + NotIn(keys, earlier) == keys
    decreases |keys|
  {
    if |keys| > |earlier| {
      var front, k := keys[..|keys| - 1], keys[|keys| - 1];
      assert earlier <= front;
      NotInTail(front, earlier);
      assert k !in earlier;
      assert front + [k] == keys;
    } else {
      assert keys == earlier;
      NoneLeft(keys, earlier);
    }
  }

  lemma {:induction false} NoneLeft(keys: seq<string>, seen: seq<string>)
    requires forall k :: k in keys ==> k in seen
    ensures NotIn(keys, seen) == []
  {
    if keys != [] {
      NoneLeft(keys[..|keys| - 1], seen);
    }
  }

  // ----- Normal form ---------------------------------------------------------------------

  lemma {:induction false} HeaderOfPrinted(h: seq<string>, es: seq<string>)
    requires (forall l :: l in h ==> IsHeader(l)) && (es != [] ==> !IsHeader(es[0]))
    ensures Header(h + es) == h
    decreases |h|
  {
    hide IsHeader;
    if h == [] {
      assert h + es == es;
    } else {
      assert (h + es)[1..] == h[1..] + es;
      HeaderOfPrinted(h[1..], es);
      assert [h[0]] + h[1..] == h;
    }
  }

  /** The leading comments and blanks survive a write, line for line; a file with neither
      header nor keys gets one blank line. */
  lemma HeaderSurvives(text: string, d: Dict)
    requires Proper(d) && LineSafe(d)
    ensures var h := Header(FileLines(text));
            Header(FileLines(Write(text, d))) == if h == [] && d.keys == [] then [""] else h
  {
    hide IsHeader, LineSafe, FileLines, Write, Order, Header;
    var lines := FileLines(text);
    var h, es := Header(lines), Entries(d, Order(lines, d));
    LinesAfterWrite(text, d);
    HeaderLeads(lines);
    if h == [] && es == [] {
      BlankHeader();
    } else {
      if es != [] {
        EntryOf(d, Order(lines, d), es[0]);
      }
      HeaderOfPrinted(h, es);
    }
  }

  lemma BlankHeader()
    ensures Header([""]) == [""]
  {
    BlankIsHeader();
    assert [""][1..] == [];
  }

  /** Writing back what was read reaches a fixed point at the first write, byte for byte,
      from any file at all. */
  lemma WriteBackIsIdempotent(text: string)
    ensures var once := Write(text, Read(text));
            Read(once) == Read(text) && Write(once, Read(once)) == once
  {
    hide Strip, IsComment, IsEntry;
    var d := Read(text);
    var lines := FileLines(text);
    ReadIsSafe(text);
    KeysInParsed(lines, d.values);
    NotInTail(d.keys, d.keys);
    ReadAfterWriteInOrder(text, d);
    var once := Write(text, d);
    assert Read(once) == d;
    HeaderSurvives(text, d);
    KeysInParsed(FileLines(once), d.values);
    var h := Header(lines);
    if h == [] && d.keys == [] {
      assert Printed(lines, d) == [];
      assert Printed(FileLines(once), d) == [""];
    } else {
      assert Printed(FileLines(once), d) == Printed(lines, d);
    }
  }

  /** Nothing stops a value with a line break from being written, and it never comes back. */
  lemma BrokenValueIsLost(text: string, k: string, v: string)
    requires '\n' in v || '\r' in v
    ensures Read(Write(text, Dict([k], map[k := v]))).values != map[k := v]
  {
    hide Read, Write;
    var d := Dict([k], map[k := v]);
    assert d.values[k] == v;
    RoundTripIff(text, d);
  }
}
