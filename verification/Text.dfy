/** Python string operations, on the characters that occur in the files and fields modelled. */
module Text {
  /** str.isspace() on one character. */
  predicate IsSpace(c: char) {
    || '\t' <= c <= '\r' || '\U{1c}' <= c <= ' ' || c == '\U{85}' || c == '\U{a0}' || c == '\U{1680}'
    || '\U{2000}' <= c <= '\U{200a}' || c == '\U{2028}' || c == '\U{2029}' || c == '\U{202f}'
    || c == '\U{205f}' || c == '\U{3000}'
  }

  function StripLeft(s: string): (r: string)
    ensures |r| <= |s| && r == s[|s| - |r|..]
    ensures r != [] ==> !IsSpace(r[0])
    ensures forall i :: 0 <= i < |s| - |r| ==> IsSpace(s[i])
  {
    if s != [] && IsSpace(s[0]) then StripLeft(s[1..]) else s
  }

  function StripRight(s: string): (r: string)
    ensures |r| <= |s| && r == s[..|r|]
    ensures r != [] ==> !IsSpace(r[|r| - 1])
    ensures forall i :: |r| <= i < |s| ==> IsSpace(s[i])
  {
    if s != [] && IsSpace(s[|s| - 1]) then StripRight(s[..|s| - 1]) else s
  }

  /** str.strip() */
  function Strip(s: string): string {
    StripRight(StripLeft(s))
  }

  predicate Trimmed(s: string) {
    s == [] || (!IsSpace(s[0]) && !IsSpace(s[|s| - 1]))
  }

  lemma StripIsTrimmed(s: string)
    ensures Trimmed(Strip(s))
  {
    hide IsSpace;
    var l := StripLeft(s);
    var r := Strip(s);
    if r != [] {
      assert r[0] == l[0];
    }
  }

  /** Stripping takes white space away at both ends and nothing else. */
  lemma StripSplits(s: string) returns (a: string, b: string)
    ensures s == a + Strip(s) + b && Trimmed(Strip(s))
    ensures (forall i :: 0 <= i < |a| ==> IsSpace(a[i])) && (forall i :: 0 <= i < |b| ==> IsSpace(b[i]))
  {
    hide IsSpace, Trimmed, StripLeft, StripRight;
    StripIsTrimmed(s);
    var l := StripLeft(s);
    var r := Strip(s);
    a, b := s[..|s| - |l|], l[|r|..];
    Reassembled(s, |s| - |l|, |r|);
  }

  lemma Reassembled(s: string, n: nat, m: nat)
    requires n + m <= |s|
    ensures s == s[..n] + s[n..][..m] + s[n..][m..]
  {
  }

  /** White space, by code point. */
  lemma SpacesAre(c: char)
    ensures IsSpace(c) <==>
            var n := c as int;
            || 9 <= n <= 13 || 28 <= n <= 32 || n == 133 || n == 160 || n == 5760 || 8192 <= n <= 8202
            || n == 8232 || n == 8233 || n == 8239 || n == 8287 || n == 12288
  {
  }

  lemma StripOfTrimmed(s: string)
    requires Trimmed(s)
    ensures Strip(s) == s
  {
  }

  /** What trailing whitespace is cut after a prefix that ends in something visible. */
  lemma {:induction false} StripRightAppend(a: string, b: string)
    ensures StripRight(b) != [] ==> StripRight(a + b) == a + StripRight(b)
    ensures StripRight(b) == [] ==> StripRight(a + b) == StripRight(a)
    decreases |b|
  {
    if b == [] {
      assert a + b == a;
    } else if IsSpace(b[|b| - 1]) {
      var front := b[..|b| - 1];
      assert (a + b)[..|a + b| - 1] == a + front;
      StripRightAppend(a, front);
    }
  }

  /** str.lower(), as far as the result can equal text in basic Latin: capital letters, and
      the Kelvin sign, whose lower case is the letter k. */
  function ToLower(c: char): char {
    if 'A' <= c <= 'Z' then c - 'A' + 'a' else if c == '\U{212a}' then 'k' else c
  }

  function Lower(s: string): string {
    seq(|s|, i requires 0 <= i < |s| => ToLower(s[i]))
  }

  /** Equal but for the case of a letter. */
  predicate SameLetter(c: char, d: char) {
    || c == d
    || ('A' <= c <= 'Z' && d == c - 'A' + 'a')
    || ('A' <= d <= 'Z' && c == d - 'A' + 'a')
    || ((c == 'k' || c == 'K' || c == '\U{212a}') && (d == 'k' || d == 'K' || d == '\U{212a}'))
  }

  predicate SameText(a: string, b: string) {
    |a| == |b| && forall i :: 0 <= i < |a| ==> SameLetter(a[i], b[i])
  }

  /** Two texts are equal in lower case exactly when they are equal but for case. */
  lemma SameTextIff(a: string, b: string)
    ensures Lower(a) == Lower(b) <==> SameText(a, b)
  {
    if |a| == |b| {
      forall i | 0 <= i < |a| ensures Lower(a)[i] == Lower(b)[i] <==> SameLetter(a[i], b[i]) {
        SameLetterIff(a[i], b[i]);
      }
      assert SameText(a, b) ==> forall i :: 0 <= i < |a| ==> Lower(a)[i] == Lower(b)[i];
    } else {
      assert |Lower(a)| != |Lower(b)|;
    }
  }

  lemma SameLetterIff(c: char, d: char)
    ensures ToLower(c) == ToLower(d) <==> SameLetter(c, d)
  {
  }

  // ----- Numbers -----------------------------------------------------------------------

  predicate AllDigits(s: string) {
    s != [] && forall i :: 0 <= i < |s| ==> '0' <= s[i] <= '9'
  }

  /** The number that digits stand for. */
  function Decimal(s: string): nat
    requires forall i :: 0 <= i < |s| ==> '0' <= s[i] <= '9'
  {
    if s == [] then 0 else 10 * Decimal(s[..|s| - 1]) + (s[|s| - 1] as int - 48)
  }

  // ----- Words ---------------------------------------------------------------------------

  predicate IsWord(w: string) {
    w != [] && forall i :: 0 <= i < |w| ==> !IsSpace(w[i])
  }

  function WordEnd(s: string): (n: nat)
    ensures n <= |s| && (forall i :: 0 <= i < n ==> !IsSpace(s[i])) && (n < |s| ==> IsSpace(s[n]))
  {
    if s == [] || IsSpace(s[0]) then 0 else 1 + WordEnd(s[1..])
  }

  /** str.split() */
  function Words(s: string): (ws: seq<string>)
    decreases |s|
  {
    if s == [] then []
    else if IsSpace(s[0]) then Words(s[1..])
    else var n := WordEnd(s); [s[..n]] + Words(s[n..])
  }

  /** " ".join(ws) */
  function JoinWords(ws: seq<string>): string {
    if ws == [] then "" else if |ws| == 1 then ws[0] else ws[0] + " " + JoinWords(ws[1..])
  }

  lemma {:induction false} WordsAreWords(s: string)
    ensures forall w :: w in Words(s) ==> IsWord(w)
    decreases |s|
  {
    hide IsSpace;
    if s != [] {
      if IsSpace(s[0]) {
        WordsAreWords(s[1..]);
      } else {
        WordsAreWords(s[WordEnd(s)..]);
      }
    }
  }

  lemma WordEndOf(w: string, rest: string)
    requires IsWord(w) && (rest != [] ==> IsSpace(rest[0]))
    ensures WordEnd(w + rest) == |w|
  {
    hide IsSpace;
    var s := w + rest;
    assert forall i :: 0 <= i < |w| ==> s[i] == w[i];
    assert rest != [] ==> s[|w|] == rest[0];
  }

  /** A word, one blank, and what follows. */
  lemma WordsCons(w: string, rest: string)
    requires IsWord(w)
    ensures Words(w) == [w] && Words(w + " " + rest) == [w] + Words(rest)
  {
    WordEndOf(w, []);
    assert w + [] == w;
    WordEndOf(w, " " + rest);
    var s := w + " " + rest;
    assert w + (" " + rest) == s;
    assert s[0] == w[0] && s[..|w|] == w && s[|w|..] == " " + rest;
    assert (" " + rest)[1..] == rest;
    assert w[|w|..] == [];
  }

  lemma {:induction false} WordsOfJoin(ws: seq<string>)
    requires forall w :: w in ws ==> IsWord(w)
    ensures Words(JoinWords(ws)) == ws
    decreases |ws|
  {
    hide IsSpace, IsWord, Words;
    if ws == [] {
      NoWords();
    } else {
      assert ws[0] in ws;
      WordsCons(ws[0], JoinWords(ws[1..]));
      assert [ws[0]] + ws[1..] == ws;
      WordsOfJoin(ws[1..]);
    }
  }

  lemma NoWords()
    ensures Words("") == []
  {
  }

  lemma {:induction false} WordsBeforeSpace(s: string, c: char)
    requires IsSpace(c)
    ensures Words(s + [c]) == Words(s)
    decreases |s|
  {
    hide IsSpace;
    var t := s + [c];
    if s == [] {
      assert t[1..] == [];
    } else if IsSpace(s[0]) {
      assert t[1..] == s[1..] + [c];
      WordsBeforeSpace(s[1..], c);
    } else {
      var n := WordEnd(s);
      assert s[..n] + (s[n..] + [c]) == t;
      WordEndOf(s[..n], s[n..] + [c]);
      assert t[..n] == s[..n] && t[n..] == s[n..] + [c];
      WordsBeforeSpace(s[n..], c);
    }
  }

  lemma {:induction false} WordsOfStripRight(s: string)
    ensures Words(StripRight(s)) == Words(s)
    decreases |s|
  {
    hide IsSpace, Words;
    if s != [] && IsSpace(s[|s| - 1]) {
      var front := s[..|s| - 1];
      assert s == front + [s[|s| - 1]];
      WordsBeforeSpace(front, s[|s| - 1]);
      WordsOfStripRight(front);
    }
  }

  /** Lower-casing and splitting commute. */
  lemma {:induction false} WordsOfLower(s: string)
    ensures |Words(Lower(s))| == |Words(s)|
    ensures forall i :: 0 <= i < |Words(s)| ==> Words(Lower(s))[i] == Lower(Words(s)[i])
    decreases |s|
  {
    if s != [] {
      LowerSpace(s[0]);
      if IsSpace(s[0]) {
        assert Lower(s)[1..] == Lower(s[1..]);
        WordsOfLower(s[1..]);
      } else {
        var n := WordEnd(s);
        LowerWordEnd(s);
        hide IsSpace, WordEnd, ToLower;
        assert Lower(s)[n..] == Lower(s[n..]) && Lower(s)[..n] == Lower(s[..n]);
        WordsOfLower(s[n..]);
      }
    }
  }

  lemma LowerSpace(c: char)
    ensures IsSpace(ToLower(c)) <==> IsSpace(c)
  {
  }

  lemma {:induction false} LowerWordEnd(s: string)
    ensures WordEnd(Lower(s)) == WordEnd(s)
    decreases |s|
  {
    if s != [] {
      LowerSpace(s[0]);
      hide IsSpace, ToLower;
      assert Lower(s)[1..] == Lower(s[1..]);
      LowerWordEnd(s[1..]);
    }
  }

  /** Rejoining the words never lengthens a text, and brings in no character but the blank. */
  lemma {:induction false} RejoinShrinks(s: string)
    ensures |JoinWords(Words(s))| <= |s|
    ensures Words(s) != [] && IsSpace(s[0]) ==> |JoinWords(Words(s))| < |s|
    ensures forall c :: c in JoinWords(Words(s)) ==> c == ' ' || c in s
    decreases |s|
  {
    hide IsSpace;
    if s != [] {
      if IsSpace(s[0]) {
        RejoinShrinks(s[1..]);
        assert forall c :: c in s[1..] ==> c in s;
      } else {
        var n := WordEnd(s);
        var rest := s[n..];
        RejoinShrinks(rest);
        assert Words(s) == [s[..n]] + Words(rest) && Words(s)[1..] == Words(rest);
        assert forall c :: c in s[..n] ==> c in s;
        assert forall c :: c in rest ==> c in s;
      }
    }
  }

  lemma JoinIsTrimmed(ws: seq<string>)
    requires forall w :: w in ws ==> IsWord(w)
    ensures Trimmed(JoinWords(ws)) && (JoinWords(ws) == [] <==> ws == [])
    decreases |ws|
  {
    hide IsSpace;
    if ws != [] {
      assert ws[0] in ws;
      if |ws| > 1 {
        JoinIsTrimmed(ws[1..]);
        assert ws[1..] != [];
      }
    }
  }
}
