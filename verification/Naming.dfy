/** Where a new snapshot goes: the timestamp, or the first numbered variant of it that is
    not taken. */
module Naming {
  import opened Hardlinks
  import opened Appliances
  import opened Text

  function Digits(n: nat): (s: string)
    ensures s != []
  {
    if n < 10 then ['0' + n as char] else Digits(n / 10) + ['0' + (n % 10) as char]
  }

  /** What str() makes of a number: its decimal digits, the first not a nought. */
  lemma {:induction false} DigitsRead(n: nat)
    ensures AllDigits(Digits(n)) && Decimal(Digits(n)) == n && (n > 0 ==> Digits(n)[0] != '0')
  {
    if n >= 10 {
      DigitsRead(n / 10);
      var s := Digits(n);
      assert s[..|s| - 1] == Digits(n / 10);
    } else {
      assert Digits(n)[..0] == [];
    }
  }

  lemma {:induction false} DigitsInjective(m: nat, n: nat)
    requires Digits(m) == Digits(n)
    ensures m == n
    decreases m
  {
    var a, b := Digits(m), Digits(n);
    assert a[|a| - 1] == b[|b| - 1];
    assert (m < 10 <==> |a| == 1) && (n < 10 <==> |b| == 1);
    if m < 10 {
      assert '0' + m as char == '0' + n as char;
    } else {
      assert a[..|a| - 1] == Digits(m / 10) && b[..|b| - 1] == Digits(n / 10);
      DigitsInjective(m / 10, n / 10);
    }
  }

  function Candidate(base: string, k: nat): string {
    if k == 0 then base else base + "_" + Digits(k)
  }

  lemma CandidateInjective(base: string, j: nat, k: nat)
    requires Candidate(base, j) == Candidate(base, k)
    ensures j == k
  {
    assert j == 0 <==> |Candidate(base, j)| == |base|;
    if j != 0 {
      var n := |base + "_"|;
      assert Candidate(base, j)[n..] == Digits(j) && Candidate(base, k)[n..] == Digits(k);
      DigitsInjective(j, k);
    }
  }

  /** The search ends, because the names it tries all differ, and it ends at the first
      variant that names no directory. */
  method FreshName(fs: Fs, base: string) returns (path: string, k: nat)
    ensures path == Candidate(base, k) && Snap(path) !in fs.dirs
    ensures forall j :: 0 <= j < k ==> Snap(Candidate(base, j)) in fs.dirs
    ensures k <= |fs.dirs|
  {
    path, k := base, 0;
    ghost var seen: set<Where> := {};
    while Snap(path) in fs.dirs
      invariant path == Candidate(base, k)
      invariant forall j :: 0 <= j < k ==> Snap(Candidate(base, j)) in fs.dirs
      invariant |seen| == k && |fs.dirs| == |fs.dirs.Keys|
      invariant seen <= fs.dirs.Keys && forall x :: x in seen ==> exists j :: 0 <= j < k && x == Snap(Candidate(base, j))
      decreases |fs.dirs.Keys| - |seen|
    {
      if Snap(path) in seen {
        var j :| 0 <= j < k && Snap(path) == Snap(Candidate(base, j));
        CandidateInjective(base, j, k);
      }
      seen := seen + {Snap(path)};
      SubsetSize(seen, fs.dirs.Keys);
      k := k + 1;
      path := base + "_" + Digits(k);
    }
    SubsetSize(seen, fs.dirs.Keys);
  }
}
