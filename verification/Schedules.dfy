/** The in-process scheduler's decisions, and what they come to over a whole sequence of
    ticks.  Local wall-clock time is counted in microseconds. */
module Schedules {
  import opened Options
  import opened Text

  const SECOND := 1_000_000
  const MINUTE := 60 * SECOND
  const DAY := 24 * 60 * MINUTE

  // ----- Parsing HH:MM -------------------------------------------------------------------

  predicate IsDigit(c: char) {
    '0' <= c <= '9'
  }

  /** Digits with single underscores between them. */
  function ParseDigits(s: string, acc: nat): Option<nat> {
    if s == [] || !IsDigit(s[0]) then None
    else
      var n := acc * 10 + (s[0] as int - '0' as int);
      if |s| == 1 then Some(n)
      else if s[1] == '_' then ParseDigits(s[2..], n)
      else ParseDigits(s[1..], n)
  }

  /** int(s) on the characters of ASCII. */
  function ParseInt(s: string): Option<int> {
    var t := Strip(s);
    var signed := t != [] && (t[0] == '-' || t[0] == '+');
    var digits := ParseDigits(if signed then t[1..] else t, 0);
    if digits.None? then None
    else if signed && t[0] == '-' then Some(0 - digits.value)
    else Some(digits.value)
  }

  function IndexOf(s: string, c: char): (i: nat)
    ensures i <= |s| && (i < |s| ==> s[i] == c)
    ensures forall j :: 0 <= j < i ==> s[j] != c
  {
    if s == [] || s[0] == c then 0 else 1 + IndexOf(s[1..], c)
  }

  /** Hour and minute, or nothing when the text is missing, malformed or out of range. */
  function ParseHhmm(value: Option<string>): (r: Option<(nat, nat)>)
    ensures r.Some? ==> r.value.0 <= 23 && r.value.1 <= 59
    ensures value.None? || ':' !in value.value ==> r.None?
  {
    if value.None? || value.value == [] then None
    else
      var v := value.value;
      var i := IndexOf(v, ':');
      if i == |v| then None
      else
        var hh, mm := ParseInt(v[..i]), ParseInt(v[i + 1..]);
        if hh.Some? && mm.Some? && 0 <= hh.value <= 23 && 0 <= mm.value <= 59
        then Some((hh.value, mm.value)) else None
  }

  function TwoDigits(n: nat): string
    requires n < 100
  {
    ['0' + (n / 10) as char, '0' + (n % 10) as char]
  }

  lemma DigitValue(n: nat)
    requires n < 10
    ensures var c := '0' + n as char; IsDigit(c) && c as int - '0' as int == n
  {
  }

  lemma ParseTwoDigits(n: nat)
    requires n < 100
    ensures ParseInt(TwoDigits(n)) == Some(n)
  {
    var s := TwoDigits(n);
    DigitValue(n / 10);
    DigitValue(n % 10);
    assert !IsSpace(s[0]) && !IsSpace(s[1]);
    StripOfTrimmed(s);
    hide Strip, IsSpace;
    assert s[1..] == [s[1]];
    assert ParseDigits([s[1]], n / 10) == Some(n);
    assert ParseDigits(s, 0) == ParseDigits(s[1..], n / 10);
  }

  /** The zero-padded form is read back as the time it writes. */
  lemma HhmmRoundTrip(h: nat, m: nat)
    requires h <= 23 && m <= 59
    ensures ParseHhmm(Some(TwoDigits(h) + ":" + TwoDigits(m))) == Some((h, m))
  {
    var v := TwoDigits(h) + ":" + TwoDigits(m);
    assert v[0] != ':' && v[1] != ':' && v[2] == ':';
    var i := IndexOf(v, ':');
    assert i == 2;
    assert v[..i] == TwoDigits(h) && v[i + 1..] == TwoDigits(m);
    ParseTwoDigits(h);
    ParseTwoDigits(m);
  }

  // ----- Deciding ------------------------------------------------------------------------

  datatype Plan =
    | Interval(minutes: Option<int>)
    | Daily(timeOfDay: Option<string>)
    | Unknown

  function ScheduledOn(day: int, hhmm: (nat, nat)): int {
    day * DAY + hhmm.0 * 60 * MINUTE + hhmm.1 * MINUTE
  }

  function DayOf(now: int): int {
    now / DAY
  }

  predicate IsDue(enabled: bool, plan: Plan, lastRunAt: Option<int>, now: int) {
    && enabled
    && match plan
       case Interval(minutes) =>
         var m := if minutes.Some? then minutes.value else 0;
         m > 0 && (lastRunAt.None? || now - lastRunAt.value >= m * MINUTE)
       case Daily(timeOfDay) =>
         var hhmm := ParseHhmm(timeOfDay);
         && hhmm.Some?
         && var at := ScheduledOn(DayOf(now), hhmm.value);
            now >= at && (lastRunAt.None? || lastRunAt.value < at)
       case Unknown => false
  }

  /** `t` falls on `day`, in microseconds since midnight of day 0. */
  predicate OnDay(day: int, t: int) {
    day * 86_400_000_000 <= t < (day + 1) * 86_400_000_000
  }

  /** Hour and minute of `day`. */
  function TimeOn(day: int, hhmm: (nat, nat)): int {
    day * 86_400_000_000 + hhmm.0 * 3_600_000_000 + hhmm.1 * 60_000_000
  }

  lemma TimeMeans(day: int, t: int, hhmm: (nat, nat))
    ensures OnDay(day, t) <==> DayOf(t) == day
    ensures TimeOn(day, hhmm) == ScheduledOn(day, hhmm)
  {
    var d := DayOf(t);
    assert d * DAY <= t < (d + 1) * DAY;
    if d < day {
      assert (d + 1) * DAY <= day * DAY;
    }
    if d > day {
      assert (day + 1) * DAY <= d * DAY;
    }
  }

  /** An enabled daily schedule is due from its hour and minute of the day on, until it has been
      attempted at or after that. */
  lemma DailyDueIff(plan: Plan, h: nat, m: nat, last: Option<int>, day: int, x: int)
    requires plan.Daily? && ParseHhmm(plan.timeOfDay) == Some((h, m)) && 0 <= x < 86_400_000_000
    ensures IsDue(true, plan, last, day * 86_400_000_000 + x) <==>
            && x >= h * 3_600_000_000 + m * 60_000_000
            && (last.None? || last.value < day * 86_400_000_000 + h * 3_600_000_000 + m * 60_000_000)
  {
    TimeMeans(day, day * 86_400_000_000 + x, (h, m));
    hide ParseHhmm, DayOf, ScheduledOn;
  }

  /** An interval schedule is due at once, and then when its minutes have gone by; one without a
      positive number of minutes never is. */
  lemma IntervalDueIff(minutes: Option<int>, last: Option<int>, now: int)
    ensures IsDue(true, Interval(minutes), last, now) <==>
            && minutes.Some? && minutes.value > 0
            && (last.None? || now - last.value >= minutes.value * 60_000_000)
  {
  }

  lemma NeverDue(plan: Plan, last: Option<int>, now: int)
    ensures !IsDue(false, plan, last, now) && !IsDue(true, Unknown, last, now)
    ensures plan.Daily? && ParseHhmm(plan.timeOfDay).None? ==> !IsDue(true, plan, last, now)
  {
  }

  // ----- Whole tick sequences ------------------------------------------------------------

  /** The ticks at which an enabled schedule is attempted; every attempt, failed or not,
      moves `lastRunAt` to its tick. */
  function Attempts(plan: Plan, lastRunAt: Option<int>, ticks: seq<int>): seq<int>
    decreases |ticks|
  {
    if ticks == [] then []
    else if IsDue(true, plan, lastRunAt, ticks[0]) then [ticks[0]] + Attempts(plan, Some(ticks[0]), ticks[1..])
    else Attempts(plan, lastRunAt, ticks[1..])
  }

  predicate Nondecreasing(ticks: seq<int>) {
    forall i, j :: 0 <= i < j < |ticks| ==> ticks[i] <= ticks[j]
  }

  function CountOn(day: int, at: seq<int>): nat {
    if at == [] then 0 else (if OnDay(day, at[0]) then 1 else 0) + CountOn(day, at[1..])
  }

  /** Some tick of `day` falls at or after the scheduled time. */
  predicate Reached(day: int, hhmm: (nat, nat), ticks: seq<int>) {
    exists i :: 0 <= i < |ticks| && OnDay(day, ticks[i]) && ticks[i] >= TimeOn(day, hhmm)
  }

  lemma ReachedFirst(day: int, hhmm: (nat, nat), ticks: seq<int>)
    requires ticks != []
    ensures Reached(day, hhmm, ticks)
       <==> (OnDay(day, ticks[0]) && ticks[0] >= TimeOn(day, hhmm)) || Reached(day, hhmm, ticks[1..])
  {
    if Reached(day, hhmm, ticks) {
      var i :| 0 <= i < |ticks| && OnDay(day, ticks[i]) && ticks[i] >= TimeOn(day, hhmm);
      assert i > 0 ==> ticks[1..][i - 1] == ticks[i];
    }
    if Reached(day, hhmm, ticks[1..]) {
      var i :| 0 <= i < |ticks[1..]| && OnDay(day, ticks[1..][i]) && ticks[1..][i] >= TimeOn(day, hhmm);
      assert ticks[i + 1] == ticks[1..][i];
    }
  }

  /** A moment at or after the scheduled time of `day` is on that day or a later one. */
  lemma SameDay(t: int, day: int, hhmm: (nat, nat))
    requires hhmm.0 <= 23 && hhmm.1 <= 59
    ensures DayOf(t) < day ==> t < ScheduledOn(day, hhmm)
    ensures DayOf(t) > day ==> t >= ScheduledOn(day, hhmm)
  {
    var d := t / DAY;
    assert d * DAY <= t < (d + 1) * DAY;
    if d < day {
      assert (d + 1) * DAY <= day * DAY;
    }
    if d > day {
      assert (day + 1) * DAY <= d * DAY;
    }
  }

  lemma DaysPass(t: int, u: int)
    requires t <= u
    ensures DayOf(t) <= DayOf(u)
  {
  }

  /** Days already gone are not reached again. */
  lemma NotReachedAgain(day: int, hhmm: (nat, nat), t: int, rest: seq<int>)
    requires DayOf(t) > day && forall u :: u in rest ==> t <= u
    ensures !Reached(day, hhmm, rest)
  {
    forall i | 0 <= i < |rest| ensures !OnDay(day, rest[i]) {
      assert rest[i] in rest;
      TimeMeans(day, rest[i], hhmm);
      DaysPass(t, rest[i]);
    }
  }

  /** A daily schedule is attempted exactly once on each day that has a tick at or after the
      scheduled time, unless it already ran then, and never on any other day. */
  lemma {:induction false} DailyExactlyOnce(plan: Plan, hhmm: (nat, nat), last: Option<int>, ticks: seq<int>, day: int)
    requires plan.Daily? && ParseHhmm(plan.timeOfDay) == Some(hhmm)
    requires Nondecreasing(ticks) && (last.Some? && ticks != [] ==> last.value <= ticks[0])
    ensures CountOn(day, Attempts(plan, last, ticks))
         == if Reached(day, hhmm, ticks) && (last.None? || last.value < TimeOn(day, hhmm)) then 1 else 0
    decreases |ticks|
  {
    hide ParseHhmm, ScheduledOn, DayOf, Reached, OnDay, TimeOn;
    if ticks == [] {
      NeverReached(day, hhmm);
    } else {
      var t, rest := ticks[0], ticks[1..];
      var next := if IsDue(true, plan, last, t) then Some(t) else last;
      DailyExactlyOnce(plan, hhmm, next, rest, day);
      ReachedFirst(day, hhmm, ticks);
      TimeMeans(day, t, hhmm);
      SameDay(t, day, hhmm);
      if DayOf(t) > day {
        NotReachedAgain(day, hhmm, t, rest);
      }
    }
  }

  lemma NeverReached(day: int, hhmm: (nat, nat))
    ensures !Reached(day, hhmm, [])
  {
  }

  predicate GapsAtMost(from: int, ticks: seq<int>, gap: int)
    decreases |ticks|
  {
    ticks != [] ==> from <= ticks[0] <= from + gap && GapsAtMost(ticks[0], ticks[1..], gap)
  }

  /** Each attempt comes at least `every` after the one before it, and less than `every` plus
      the largest gap between ticks. */
  predicate Paced(from: int, at: seq<int>, every: int, gap: int)
    decreases |at|
  {
    at != [] ==> from + every <= at[0] < from + every + gap && Paced(at[0], at[1..], every, gap)
  }

  function LastOf(from: int, at: seq<int>): int {
    if at == [] then from else at[|at| - 1]
  }

  lemma LastOfCons(from: int, a: int, at: seq<int>)
    ensures LastOf(from, [a] + at) == LastOf(a, at)
  {
  }

  /** Ticks before the interval is up cause nothing; the first one after it is an attempt. */
  lemma {:induction false} IntervalPaced(plan: Plan, last: int, seen: int, ticks: seq<int>, gap: int)
    requires plan.Interval? && plan.minutes.Some? && plan.minutes.value > 0 && gap > 0
    requires last <= seen < last + plan.minutes.value * 60_000_000 && GapsAtMost(seen, ticks, gap)
    ensures var at := Attempts(plan, Some(last), ticks);
            && Paced(last, at, plan.minutes.value * 60_000_000, gap)
            && forall t :: t in ticks ==> t < LastOf(last, at) + plan.minutes.value * 60_000_000
    decreases |ticks|
  {
    if ticks != [] {
      var t, rest := ticks[0], ticks[1..];
      assert forall x :: x in ticks ==> x == t || x in rest;
      var every := plan.minutes.value * 60_000_000;
      if t - last >= every {
        IntervalPaced(plan, t, t, rest, gap);
        var at := Attempts(plan, Some(t), rest);
        assert Attempts(plan, Some(last), ticks) == [t] + at;
        LastOfCons(last, t, at);
        PacedGrows(t, at, every, gap);
      } else {
        IntervalPaced(plan, last, t, rest, gap);
        PacedGrows(last, Attempts(plan, Some(last), rest), every, gap);
      }
    }
  }

  /** A schedule that has never run is attempted at the very first tick, and at that pace from
      there on. */
  lemma IntervalStartsAtOnce(plan: Plan, ticks: seq<int>, gap: int)
    requires plan.Interval? && plan.minutes.Some? && plan.minutes.value > 0 && gap > 0
    requires ticks != [] && GapsAtMost(ticks[0], ticks[1..], gap)
    ensures var at := Attempts(plan, None, ticks);
            && at != [] && at[0] == ticks[0] && Paced(at[0], at[1..], plan.minutes.value * 60_000_000, gap)
            && forall t :: t in ticks ==> t < LastOf(at[0], at[1..]) + plan.minutes.value * 60_000_000
  {
    var t, rest := ticks[0], ticks[1..];
    IntervalPaced(plan, t, t, rest, gap);
    var at := Attempts(plan, Some(t), rest);
    assert Attempts(plan, None, ticks)[1..] == at;
    PacedGrows(t, at, plan.minutes.value * 60_000_000, gap);
    assert forall x :: x in ticks ==> x == t || x in rest;
  }

  lemma {:induction false} PacedGrows(from: int, at: seq<int>, every: int, gap: int)
    requires Paced(from, at, every, gap) && every > 0
    ensures from <= LastOf(from, at)
    decreases |at|
  {
    if at != [] {
      PacedGrows(at[0], at[1..], every, gap);
      assert at == [at[0]] + at[1..];
      LastOfCons(from, at[0], at[1..]);
    }
  }

  // ----- The per-server daily time -------------------------------------------------------

  /** What the settings form accepts as a daily backup time. */
  predicate AcceptedTime(t: string) {
    var i := IndexOf(t, ':');
    && i < |t| && ':' !in t[i + 1..] && AllDigits(t[..i]) && AllDigits(t[i + 1..])
    && var h, m := ParseDigits(t[..i], 0), ParseDigits(t[i + 1..], 0);
       h.Some? && m.Some? && h.value <= 23 && m.value <= 59
  }

  /** Digits are read as the number they stand for. */
  lemma {:induction false} ParseDigitsIs(s: string, acc: nat)
    requires AllDigits(s)
    ensures ParseDigits(s, acc) == Some(acc * Pow10(|s|) + Decimal(s))
    decreases |s|
  {
    if |s| > 1 {
      ParseDigitsIs(s[1..], acc * 10 + (s[0] as int - 48));
      DecimalCons(s);
      Shift(acc, s[0] as int - 48, Pow10(|s| - 1));
    } else {
      assert s[..0] == [] && Decimal(s) == s[0] as int - 48;
    }
  }

  function Pow10(n: nat): nat {
    if n == 0 then 1 else 10 * Pow10(n - 1)
  }

  lemma Shift(acc: nat, d: int, p: nat)
    ensures (acc * 10 + d) * p == acc * (10 * p) + d * p
  {
  }

  lemma {:induction false} DecimalCons(s: string)
    requires AllDigits(s)
    ensures Decimal(s) == (s[0] as int - 48) * Pow10(|s| - 1) + Decimal(s[1..])
    decreases |s|
  {
    if |s| > 1 {
      var front, n, d := s[..|s| - 1], |s| - 1, s[0] as int - 48;
      DecimalCons(front);
      assert front[1..] == s[1..][..n - 1] && s[1..][n - 1] == s[n];
      assert Decimal(s) == 10 * Decimal(front) + (s[n] as int - 48);
      assert Decimal(s[1..]) == 10 * Decimal(front[1..]) + (s[n] as int - 48);
      hide Decimal;
      assert Pow10(n) == 10 * Pow10(n - 1);
      TenTimes(d, Pow10(n - 1));
    } else {
      assert s[..0] == [] && s[1..] == [];
    }
  }

  lemma TenTimes(d: int, p: nat)
    ensures 10 * (d * p) == d * (10 * p)
  {
  }

  /** A time is accepted exactly when it is two numbers of plain digits with a colon between
      them, of at most 23 and 59. */
  lemma AcceptedTimeIff(t: string)
    ensures AcceptedTime(t) <==> exists i :: 0 <= i < |t| && TimeAt(t, i)
  {
    var i := IndexOf(t, ':');
    if i < |t| && AllDigits(t[..i]) && AllDigits(t[i + 1..]) {
      ParseDigitsIs(t[..i], 0);
      ParseDigitsIs(t[i + 1..], 0);
      NoColon(t[i + 1..]);
      assert AcceptedTime(t) <==> TimeAt(t, i);
    }
    forall j | 0 <= j < |t| && TimeAt(t, j) ensures i == j {
      NoColon(t[..j]);
      assert forall k :: 0 <= k < j ==> t[k] == t[..j][k];
    }
    hide AllDigits, Decimal, ParseDigits;
  }

  lemma NoColon(s: string)
    requires AllDigits(s)
    ensures ':' !in s
  {
  }

  predicate TimeAt(t: string, i: int)
    requires 0 <= i < |t|
  {
    t[i] == ':' && AllDigits(t[..i]) && AllDigits(t[i + 1..]) && Decimal(t[..i]) <= 23 && Decimal(t[i + 1..]) <= 59
  }

  /** Digits with a colon between them are that hour and minute, or nothing when there is no
      such time of day. */
  lemma HhmmOfDigits(a: string, b: string)
    requires AllDigits(a) && AllDigits(b)
    ensures ParseHhmm(Some(a + ":" + b))
         == if Decimal(a) <= 23 && Decimal(b) <= 59 then Some((Decimal(a), Decimal(b))) else None
  {
    var v := a + ":" + b;
    assert v[|a|] == ':' && forall j :: 0 <= j < |a| ==> v[j] == a[j];
    assert IndexOf(v, ':') == |a| && v[..|a|] == a && v[|a| + 1..] == b;
    ParseIntOf(a);
    ParseIntOf(b);
    hide ParseInt, Decimal;
  }

  /** A number with or without a sign. */
  lemma ParseIntOf(a: string)
    requires AllDigits(a)
    ensures ParseInt(a) == ParseInt("+" + a) == Some(Decimal(a)) && ParseInt("-" + a) == Some(0 - Decimal(a))
  {
    hide Strip, Trimmed, ParseDigits, Decimal, IsSpace;
    ParseDigitsIs(a, 0);
    SignedIsTrimmed('+', a);
    SignedIs('+', a);
    SignedIs('-', a);
    StripOfTrimmed(a);
  }

  lemma SignedIs(sign: char, a: string)
    requires AllDigits(a) && (sign == '+' || sign == '-') && ParseDigits(a, 0) == Some(Decimal(a))
    ensures ParseInt([sign] + a) == Some(if sign == '-' then 0 - Decimal(a) else Decimal(a))
  {
    hide Strip, Trimmed, ParseDigits, Decimal, AllDigits, IsSpace;
    SignedIsTrimmed(sign, a);
    StripOfTrimmed([sign] + a);
    assert ([sign] + a)[1..] == a;
  }

  lemma SignedIsTrimmed(sign: char, a: string)
    requires AllDigits(a) && (sign == '+' || sign == '-')
    ensures Trimmed([sign] + a) && Trimmed(a) && a[0] != '+' && a[0] != '-'
  {
    var t := [sign] + a;
    assert t[|t| - 1] == a[|a| - 1];
  }

  /** The wall clock as the scheduler writes it. */
  function Clock(h: nat, m: nat): string
    requires h <= 23 && m <= 59
  {
    TwoDigits(h) + ":" + TwoDigits(m)
  }

  lemma PairIsTwoDigits(s: string, n: nat)
    requires |s| == 2 && IsDigit(s[0]) && IsDigit(s[1]) && ParseDigits(s, 0) == Some(n)
    ensures n < 100 && s == TwoDigits(n)
  {
    var d0, d1 := s[0] as int - '0' as int, s[1] as int - '0' as int;
    assert s[1..] == [s[1]];
    assert ParseDigits([s[1]], d0) == Some(d0 * 10 + d1);
    assert ParseDigits(s, 0) == ParseDigits(s[1..], d0);
    assert n / 10 == d0 && n % 10 == d1;
  }

  /** An accepted time is ever equal to the clock if and only if both its parts have two
      digits: "4:00" and "04:000" are accepted, and never come. */
  lemma AcceptedTimeComesIff(t: string)
    requires AcceptedTime(t)
    ensures (exists h: nat, m: nat :: h <= 23 && m <= 59 && t == Clock(h, m)) <==> |t| == 5 && t[2] == ':'
  {
    var i := IndexOf(t, ':');
    if |t| == 5 && t[2] == ':' {
      assert forall j :: i < j < |t| ==> t[j] == t[i + 1..][j - i - 1];
      assert i == 2;
      var h, m := ParseDigits(t[..i], 0).value, ParseDigits(t[i + 1..], 0).value;
      PairIsTwoDigits(t[..i], h);
      PairIsTwoDigits(t[i + 1..], m);
      assert t == t[..2] + ":" + t[3..];
      assert t == Clock(h, m);
    }
  }

  // ----- The scheduler's loop ------------------------------------------------------------

  datatype RunStatus = Never | Skipped | Succeeded | Failed

  class BackupSchedule {
    var enabled: bool
    var plan: Plan
    var lastRunAt: Option<int>
    var lastStatus: RunStatus
    ghost var attempts: seq<int>

    constructor (enabled: bool, plan: Plan)
      ensures this.enabled == enabled && this.plan == plan && lastRunAt == None && attempts == []
    {
      this.enabled, this.plan, this.lastRunAt, this.lastStatus, this.attempts := enabled, plan, None, Never, [];
    }
  }

  /** What the backup itself comes to. */
  datatype Outcome = ServerGone | Written | Raised

  function StatusAfter(outcome: Outcome): RunStatus {
    match outcome
    case ServerGone => Skipped
    case Written => Succeeded
    case Raised => Failed
  }

  /** One due backup; when it raises, the schedule is left as it was. */
  method RunDueBackup(sch: BackupSchedule, now: int, outcome: Outcome) returns (raised: bool)
    modifies sch`lastRunAt, sch`lastStatus
    ensures raised <==> outcome.Raised?
    ensures raised ==> unchanged(sch)
    ensures !raised ==> sch.lastRunAt == Some(now) && sch.lastStatus == StatusAfter(outcome)
  {
    if outcome.ServerGone? {
      sch.lastRunAt, sch.lastStatus := Some(now), Skipped;
      return false;
    }
    if outcome.Raised? {
      return true;
    }
    sch.lastRunAt, sch.lastStatus := Some(now), Succeeded;
    return false;
  }

  /** What one tick does to one schedule. */
  twostate predicate Ticked(sch: BackupSchedule, now: int, outcome: Outcome)
    reads sch
  {
    && sch.enabled == old(sch.enabled) && sch.plan == old(sch.plan)
    && if old(IsDue(sch.enabled, sch.plan, sch.lastRunAt, now))
       then sch.lastRunAt == Some(now) && sch.attempts == old(sch.attempts) + [now] && sch.lastStatus == StatusAfter(outcome)
       else sch.lastRunAt == old(sch.lastRunAt) && sch.attempts == old(sch.attempts) && sch.lastStatus == old(sch.lastStatus)
  }

  /** One pass over all schedules; a failure of one does not keep the others from their turn. */
  method Tick(schedules: seq<BackupSchedule>, now: int, outcomes: seq<Outcome>)
    requires |outcomes| == |schedules|
    requires forall i, j :: 0 <= i < j < |schedules| ==> schedules[i] != schedules[j]
    modifies schedules
    ensures forall i :: 0 <= i < |schedules| ==> Ticked(schedules[i], now, outcomes[i])
  {
    hide ParseHhmm, ScheduledOn, DayOf;
    for k := 0 to |schedules|
      invariant forall i :: 0 <= i < k ==> Ticked(schedules[i], now, outcomes[i])
      invariant forall i :: k <= i < |schedules| ==> unchanged(schedules[i])
    {
      var sch := schedules[k];
      if IsDue(sch.enabled, sch.plan, sch.lastRunAt, now) {
        sch.attempts := sch.attempts + [now];
        var raised := RunDueBackup(sch, now, outcomes[k]);
        if raised {
          sch.lastRunAt, sch.lastStatus := Some(now), Failed;
        }
      }
    }
  }

  function LastRun(plan: Plan, lastRunAt: Option<int>, ticks: seq<int>): Option<int>
    decreases |ticks|
  {
    if ticks == [] then lastRunAt
    else LastRun(plan, if IsDue(true, plan, lastRunAt, ticks[0]) then Some(ticks[0]) else lastRunAt, ticks[1..])
  }

  lemma {:induction false} AttemptsSnoc(plan: Plan, last: Option<int>, ticks: seq<int>, t: int)
    ensures var due := IsDue(true, plan, LastRun(plan, last, ticks), t);
            && Attempts(plan, last, ticks + [t]) == Attempts(plan, last, ticks) + (if due then [t] else [])
            && LastRun(plan, last, ticks + [t]) == (if due then Some(t) else LastRun(plan, last, ticks))
    decreases |ticks|
  {
    hide IsDue;
    if ticks == [] {
      assert ticks + [t] == [t] && [t][1..] == [];
    } else {
      assert (ticks + [t])[1..] == ticks[1..] + [t];
      AttemptsSnoc(plan, if IsDue(true, plan, last, ticks[0]) then Some(ticks[0]) else last, ticks[1..], t);
    }
  }

  lemma AttemptsNone(plan: Plan, last: Option<int>)
    ensures Attempts(plan, last, []) == [] && LastRun(plan, last, []) == last
  {
  }

  /** One pass over one schedule. */
  method TickOne(sch: BackupSchedule, now: int, outcome: Outcome)
    modifies sch
    ensures sch.enabled == old(sch.enabled) && sch.plan == old(sch.plan)
    ensures if old(IsDue(sch.enabled, sch.plan, sch.lastRunAt, now))
            then sch.lastRunAt == Some(now) && sch.attempts == old(sch.attempts) + [now]
            else sch.lastRunAt == old(sch.lastRunAt) && sch.attempts == old(sch.attempts)
  {
    hide IsDue;
    Tick([sch], now, [outcome]);
    assert Ticked([sch][0], now, [outcome][0]);
  }

  /** Over a whole sequence of ticks an enabled schedule is attempted at exactly `Attempts`,
      of which `DailyExactlyOnce` and `IntervalPaced` speak; a disabled one never. */
  method RunTicks(sch: BackupSchedule, ticks: seq<int>, outcomes: seq<Outcome>)
    requires |outcomes| == |ticks|
    modifies sch
    ensures sch.plan == old(sch.plan) && sch.enabled == old(sch.enabled)
    ensures sch.enabled ==> sch.attempts == old(sch.attempts) + Attempts(sch.plan, old(sch.lastRunAt), ticks)
    ensures !sch.enabled ==> sch.attempts == old(sch.attempts)
  {
    hide *;
    var plan, last := sch.plan, sch.lastRunAt;
    AttemptsNone(plan, last);
    assert ticks[..0] == [];
    for i := 0 to |ticks|
      invariant sch.plan == plan && sch.enabled == old(sch.enabled)
      invariant !sch.enabled ==> sch.attempts == old(sch.attempts)
      invariant sch.enabled ==> sch.attempts == old(sch.attempts) + Attempts(plan, last, ticks[..i])
      invariant sch.enabled ==> sch.lastRunAt == LastRun(plan, last, ticks[..i])
    {
      assert ticks[..i + 1] == ticks[..i] + [ticks[i]];
      AttemptsSnoc(plan, last, ticks[..i], ticks[i]);
      DisabledNeverDue(plan, sch.lastRunAt, ticks[i]);
      TickOne(sch, ticks[i], outcomes[i]);
    }
    assert ticks[..|ticks|] == ticks;
  }

  lemma DisabledNeverDue(plan: Plan, last: Option<int>, now: int)
    ensures !IsDue(false, plan, last, now)
  {
  }
}
