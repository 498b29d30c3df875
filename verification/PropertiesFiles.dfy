/** The server.properties file on disk, and the operations that rewrite it. */
module PropertiesFiles {
  import opened Options
  import opened Text
  import opened Properties

  /** What a missing file reads as. */
  function Existing(text: Option<string>): string {
    if text.Some? then text.value else ""
  }

  /** The form's values, for the keys that `existing` has and no others. */
  function Updated(existing: Dict, form: map<string, string>): (d: Dict)
    ensures Proper(existing) ==> Proper(d)
  {
    Dict(existing.keys, map k | k in existing.values :: if k in form then form[k] else existing.values[k])
  }

  /** `values` with the form's values for the keys in `ks`. */
  function Filled(values: map<string, string>, form: map<string, string>, ks: seq<string>): map<string, string> {
    map k | k in values :: if k in form && k in ks then form[k] else values[k]
  }

  lemma FilledSnoc(values: map<string, string>, form: map<string, string>, ks: seq<string>, k: string)
    requires k in values
    ensures k in form ==> Filled(values, form, ks + [k]) == Filled(values, form, ks)[k := form[k]]
    ensures k !in form ==> Filled(values, form, ks + [k]) == Filled(values, form, ks)
  {
  }

  lemma FilledMore(existing: Dict, form: map<string, string>, i: nat)
    requires Proper(existing) && i < |existing.keys|
    ensures var keys := existing.keys;
            var done := Dict(keys, Filled(existing.values, form, keys[..i]));
            Dict(keys, Filled(existing.values, form, keys[..i + 1]))
            == if keys[i] in form then Put(done, keys[i], form[keys[i]]) else done
  {
    var keys, key := existing.keys, existing.keys[i];
    assert key in existing.values && key in Filled(existing.values, form, keys[..i]);
    hide Proper, Filled;
    assert keys[..i + 1] == keys[..i] + [key];
    FilledSnoc(existing.values, form, keys[..i], key);
  }

  lemma FilledEnds(existing: Dict, form: map<string, string>)
    requires Proper(existing)
    ensures Dict(existing.keys, Filled(existing.values, form, existing.keys[..0])) == existing
    ensures Dict(existing.keys, Filled(existing.values, form, existing.keys[..|existing.keys|])) == Updated(existing, form)
  {
    assert existing.keys[..|existing.keys|] == existing.keys;
  }

  /** The loop that copies the form's values over the existing ones. */
  method FillIn(existing: Dict, form: map<string, string>) returns (newValues: Dict)
    requires Proper(existing)
    ensures newValues == Updated(existing, form)
  {
    hide *;
    newValues := existing;
    var keys := existing.keys;
    FilledEnds(existing, form);
    for i := 0 to |keys|
      invariant newValues == Dict(keys, Filled(existing.values, form, keys[..i]))
    {
      FilledMore(existing, form, i);
      if keys[i] in form {
        newValues := Put(newValues, keys[i], form[keys[i]]);
      }
    }
  }

  /** Saving the form is read back exactly when no value it sets holds a line break. */
  lemma SavedIff(text: string, form: map<string, string>)
    ensures var d := Updated(Read(text), form);
            Read(Write(text, d)) == d
            <==> forall k :: k in Read(text).values && k in form ==> Unbroken(form[k])
  {
    hide Read, Write, SafeKey, Unbroken;
    var before := Read(text);
    var d := Updated(before, form);
    ReadIsSafe(text);
    RoundTripIff(text, d);
    if forall k :: k in before.values && k in form ==> Unbroken(form[k]) {
      ExtendedReadsBack(text, d);
    } else {
      var k :| k in before.values && k in form && !Unbroken(form[k]);
      assert d.values[k] == form[k];
    }
  }

  lemma {:induction false} HeaderEndsAt(lines: seq<string>, n: nat)
    requires n <= |lines| && forall i :: 0 <= i < n ==> IsHeader(lines[i])
    requires n < |lines| ==> !IsHeader(lines[n])
    ensures Header(lines) == lines[..n]
    decreases n
  {
    hide IsHeader;
    if n > 0 {
      HeaderEndsAt(lines[1..], n - 1);
      assert [lines[0]] + lines[1..][..n - 1] == lines[..n];
    }
  }

  method CollectHeader(lines: seq<string>) returns (header: seq<string>)
    ensures header == Header(lines)
  {
    hide Strip, Header;
    header := [];
    var i := 0;
    while i < |lines| && (IsComment(lines[i]) || Strip(lines[i]) == [])
      invariant 0 <= i <= |lines| && header == lines[..i]
      invariant forall j :: 0 <= j < i ==> IsHeader(lines[j])
    {
      header := header + [lines[i]];
      i := i + 1;
    }
    HeaderEndsAt(lines, i);
  }

  lemma ParseStep(lines: seq<string>, i: nat)
    requires i < |lines|
    ensures var l := lines[i];
            Parse(lines[..i + 1]) == if IsEntry(l) then Put(Parse(lines[..i]), KeyOf(l), ValueOf(l))
                                     else Parse(lines[..i])
  {
    assert lines[..i + 1] == lines[..i] + [lines[i]];
    ParseSnoc(lines[..i], lines[i]);
  }

  lemma ParseEnds(lines: seq<string>)
    ensures Parse(lines[..0]) == Dict([], map[]) && Parse(lines[..|lines|]) == Parse(lines)
  {
    assert lines[..|lines|] == lines && lines[..0] == [];
  }

  lemma ReadNothing()
    ensures Read("") == Dict([], map[])
  {
    assert FileLines("") == [];
  }

  lemma KeysInStep(lines: seq<string>, i: nat, wanted: map<string, string>)
    requires i < |lines|
    ensures var l, ks := lines[i], KeysIn(lines[..i], wanted);
            KeysIn(lines[..i + 1], wanted)
            == if IsEntry(l) && KeyOf(l) in wanted && KeyOf(l) !in ks then ks + [KeyOf(l)] else ks
  {
    assert lines[..i + 1][..i] == lines[..i];
  }

  lemma NotInStep(keys: seq<string>, i: nat, seen: seq<string>)
    requires i < |keys|
    ensures keys[i] in seen ==> NotIn(keys[..i + 1], seen) == NotIn(keys[..i], seen)
    ensures keys[i] !in seen ==> NotIn(keys[..i + 1], seen) == NotIn(keys[..i], seen) + [keys[i]]
  {
    assert keys[..i + 1][..i] == keys[..i];
  }

  /** The wanted keys the old file sets, as they first appear, and the set of them. */
  method KnownKeys(lines: seq<string>, newValues: Dict) returns (ordered: seq<string>, seen: set<string>)
    ensures ordered == KeysIn(lines, newValues.values)
    ensures forall k :: k in seen <==> k in ordered
  {
    hide IsComment, KeyOf, KeysIn;
    ordered, seen := [], {};
    NoKeys(lines, newValues.values);
    for i := 0 to |lines|
      invariant ordered == KeysIn(lines[..i], newValues.values)
      invariant forall k :: k in seen <==> k in ordered
    {
      var line := lines[i];
      KeysInStep(lines, i, newValues.values);
      if !IsComment(line) && '=' in line {
        var key := KeyOf(line);
        if key in newValues.values && key !in seen {
          ordered := ordered + [key];
          seen := seen + {key};
        }
      }
    }
    assert lines[..|lines|] == lines;
  }

  lemma NoKeys(lines: seq<string>, wanted: map<string, string>)
    ensures KeysIn(lines[..0], wanted) == []
  {
  }

  /** Old keys in their old order, then the new ones. */
  method OrderKeys(lines: seq<string>, newValues: Dict) returns (ordered: seq<string>)
    requires Proper(newValues)
    ensures ordered == Order(lines, newValues)
  {
    var first, seen := KnownKeys(lines, newValues);
    ordered := AddNewKeys(newValues.keys, first, seen);
  }

  method AddNewKeys(keys: seq<string>, first: seq<string>, known: set<string>) returns (ordered: seq<string>)
    requires Distinct(keys) && forall k :: k in known <==> k in first
    ensures ordered == first + NotIn(keys, first)
  {
    var seen := known;
    ordered := first;
    hide NotIn, Distinct;
    NothingLeft(keys, first);
    for i := 0 to |keys|
      invariant ordered == first + NotIn(keys[..i], first)
      invariant forall k :: k in seen <==> k in known || k in keys[..i]
    {
      var key := keys[i];
      NotInStep(keys, i, first);
      DistinctSoFar(keys, i);
      assert keys[..i + 1] == keys[..i] + [key];
      if key !in seen {
        ordered := ordered + [key];
        seen := seen + {key};
      }
    }
    assert keys[..|keys|] == keys;
  }

  lemma DistinctSoFar(keys: seq<string>, i: nat)
    requires Distinct(keys) && i < |keys|
    ensures keys[i] !in keys[..i]
  {
  }

  lemma NothingLeft(keys: seq<string>, seen: seq<string>)
    ensures NotIn(keys[..0], seen) == []
  {
  }

  class PropertiesFile {
    /** The file's text; None when there is no file. */
    var text: Option<string>
    /** The copy taken before the last overwrite. */
    var backup: Option<string>

    method ReadProperties() returns (props: Dict, found: bool)
      ensures found == text.Some?
      ensures props == Read(Existing(text))
    {
      props := Dict([], map[]);
      if text.None? {
        ReadNothing();
        return props, false;
      }
      var lines := FileLines(text.value);
      ParseEnds(lines);
      hide Strip, KeyOf, ValueOf, FileLines, Parse, Put;
      for i := 0 to |lines|
        invariant props == Parse(lines[..i])
      {
        var line := lines[i];
        var stripped := Strip(line);
        ParseStep(lines, i);
        if stripped != [] && stripped[0] != '#' && '=' in line {
          props := Put(props, KeyOf(line), ValueOf(line));
        } else if stripped == [] {
          StripEmpty(line);
        }
      }
      found := true;
    }

    /** The old text is kept as the backup, then the file is overwritten. */
    method WriteProperties(newValues: Dict)
      requires Proper(newValues)
      modifies this
      ensures text == Some(Write(Existing(old(text)), newValues))
      ensures backup == if old(text).Some? then old(text) else old(backup)
    {
      var lines := FileLines(Existing(text));
      hide FileLines, Header, Order, Entry, Join;
      if text.Some? {
        backup := text;
      }
      var header := CollectHeader(lines);
      var ordered := OrderKeys(lines, newValues);
      var out := header;
      for i := 0 to |ordered|
        invariant out == header + Entries(newValues, ordered[..i])
      {
        assert ordered[..i + 1][..i] == ordered[..i];
        assert ordered[i] in ordered;
        out := out + [Entry(newValues, ordered[i])];
      }
      assert ordered[..|ordered|] == ordered;
      text := Some(Join(out) + "\n");
    }

    /** Applies `updates`, creating the file when there is none. */
    method MergeProperties(updates: Dict)
      requires Proper(updates)
      modifies this
      ensures text == Some(Write(Existing(old(text)), Merge(Read(Existing(old(text))), updates)))
      ensures backup == if old(text).Some? then old(text) else old(backup)
    {
      hide Read, Write;
      var merged, _ := ReadProperties();
      ghost var start := merged;
      for i := 0 to |updates.keys|
        invariant Proper(merged)
        invariant MergeFrom(merged, updates.keys[i..], updates.values) == Merge(start, updates)
      {
        var key := updates.keys[i];
        assert updates.keys[i..][1..] == updates.keys[i + 1..];
        merged := Put(merged, key, updates.values[key]);
      }
      WriteProperties(merged);
    }

    /** Saves the form over the keys the file already has; with no file nothing happens. */
    method SaveProperties(form: map<string, string>) returns (saved: bool)
      modifies this
      ensures saved == old(text).Some?
      ensures saved ==> text == Some(Write(old(text).value, Updated(Read(old(text).value), form)))
      ensures saved ==> backup == old(text)
      ensures !saved ==> unchanged(this)
    {
      hide Read, Write, Proper;
      var existing, found := ReadProperties();
      if !found {
        return false;
      }
      var newValues := FillIn(existing, form);
      WriteProperties(newValues);
      saved := true;
    }
  }
}
