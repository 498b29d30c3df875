/** The backup settings form: what it stores, and the bounds that leaves on every server. */
module BackupSettings {
  import opened Options
  import opened Text
  import opened Worlds
  import opened Runs
  import opened Appliances
  import opened Schedules

  const DEFAULT_INTERVAL := 6
  const DEFAULT_KEEP := 7

  datatype BackupForm = BackupForm(
    enabled: Option<string>, time: string, onStart: Option<string>, minInterval: string, keep: string)

  predicate Checked(value: Option<string>) {
    value.Some? &&
    var t := Lower(value.value); t == "on" || t == "true" || t == "1" || t == "yes"
  }

  /** The number typed, but not less than `least`; what is no number is `otherwise`. */
  function Clamped(text: string, least: int, otherwise: int): int {
    var n := ParseInt(text);
    if n.None? then otherwise else if n.value < least then least else n.value
  }

  /** The settings after the form, or nothing when its time is refused. */
  function Filled(settings: Settings, form: BackupForm): Option<Settings> {
    var time := Strip(form.time);
    if !AcceptedTime(time) then None
    else Some(settings.(backupEnabled := Checked(form.enabled), backupTime := time,
                        backupOnStart := Checked(form.onStart),
                        minIntervalHours := Clamped(form.minInterval, 0, DEFAULT_INTERVAL),
                        keepGenerations := Clamped(form.keep, 1, DEFAULT_KEEP)))
  }

  /** A box counts as ticked when it was sent with one of four words, in whatever case. */
  predicate Ticked(box: Option<string>) {
    && box.Some?
    && (SameText(box.value, "on") || SameText(box.value, "true") || SameText(box.value, "1") || SameText(box.value, "yes"))
  }

  lemma CheckedIff(box: Option<string>)
    ensures Checked(box) <==> Ticked(box)
  {
    if box.Some? {
      assert Lower("on") == "on" && Lower("true") == "true" && Lower("1") == "1" && Lower("yes") == "yes";
      SameTextIff(box.value, "on");
      SameTextIff(box.value, "true");
      SameTextIff(box.value, "1");
      SameTextIff(box.value, "yes");
    }
  }

  /** What the form makes of the settings: both boxes, the trimmed time, an interval of at least
      0 or else 6, a number of generations of at least 1 or else 7; nothing else changes. */
  predicate Stored(before: Settings, form: BackupForm, after: Settings) {
    && after.backupRoot == before.backupRoot && after.jar == before.jar && after.rconEnabled == before.rconEnabled
    && (after.backupEnabled <==> Ticked(form.enabled)) && (after.backupOnStart <==> Ticked(form.onStart))
    && after.backupTime == Strip(form.time)
    && after.minIntervalHours == (match ParseInt(form.minInterval) case None => 6 case Some(n) => if n > 0 then n else 0)
    && after.keepGenerations == (match ParseInt(form.keep) case None => 7 case Some(n) => if n > 1 then n else 1)
  }

  lemma FilledIff(settings: Settings, form: BackupForm)
    ensures Filled(settings, form).Some? <==> exists i :: 0 <= i < |Strip(form.time)| && TimeAt(Strip(form.time), i)
    ensures Filled(settings, form).Some? ==> Stored(settings, form, Filled(settings, form).value)
  {
    AcceptedTimeIff(Strip(form.time));
    CheckedIff(form.enabled);
    CheckedIff(form.onStart);
    hide Checked, Ticked, Strip, ParseInt, AcceptedTime, TimeAt;
  }

  predicate Bounded(settings: Settings) {
    settings.keepGenerations >= 1 && settings.minIntervalHours >= 0
  }

  /** Whatever is typed, retention keeps at least one generation and the interval is not
      negative; a daily backup at the stored time is ever due if and only if both its parts
      have two digits. */
  lemma FormIsBounded(settings: Settings, form: BackupForm)
    ensures Filled(settings, form).Some? ==>
              var filled := Filled(settings, form).value;
              && Bounded(filled)
              && filled.backupRoot == settings.backupRoot && filled.jar == settings.jar
              && filled.rconEnabled == settings.rconEnabled
              && (Comes(filled.backupTime) <==> |filled.backupTime| == 5 && filled.backupTime[2] == ':')
  {
    var t := Strip(form.time);
    hide Strip, AcceptedTime, ParseInt, Checked;
    StripIsTrimmed(form.time);
    StripOfTrimmed(t);
    if AcceptedTime(t) {
      AcceptedTimeComesIff(t);
    }
  }

  /** Some reading of the clock makes a daily backup at `time` due. */
  ghost predicate Comes(time: string) {
    exists h: nat, m: nat :: h <= 23 && m <= 59 && Strip(time) == Clock(h, m)
  }

  /** Two times the form accepts and no clock ever shows. */
  lemma TimesThatNeverCome()
    ensures AcceptedTime("4:00") && !Comes("4:00")
    ensures AcceptedTime("04:000") && !Comes("04:000")
  {
    FoursAndZeros();
    OddShapeNeverComes("4:00", 1);
    OddShapeNeverComes("04:000", 2);
  }

  lemma OddShapeNeverComes(t: string, i: nat)
    requires i < |t| && t[i] == ':' && ':' !in t[..i] && ':' !in t[i + 1..] && !(|t| == 5 && t[2] == ':')
    requires AllDigits(t[..i]) && ParseDigits(t[..i], 0) == Some(4)
    requires AllDigits(t[i + 1..]) && ParseDigits(t[i + 1..], 0) == Some(0)
    ensures AcceptedTime(t) && !Comes(t)
  {
    assert t[..i][0] == t[0] && t[i + 1..][|t| - i - 2] == t[|t| - 1];
    hide Strip, ParseDigits;
    assert AcceptedTime(t) && Trimmed(t);
    hide AcceptedTime, Trimmed;
    StripOfTrimmed(t);
    AcceptedTimeComesIff(t);
  }

  lemma FoursAndZeros()
    ensures ParseDigits("4", 0) == Some(4) && ParseDigits("04", 0) == Some(4)
    ensures ParseDigits("00", 0) == Some(0) && ParseDigits("000", 0) == Some(0)
  {
    assert "04"[1..] == "4" && "00"[1..] == "0" && "000"[1..] == "00";
    assert ParseDigits("0", 0) == Some(0);
  }

  ghost predicate AllBounded(w: World) {
    forall s :: s in w.servers ==> Bounded(w.servers[s].settings)
  }

  /** Nothing but saving settings changes them. */
  lemma StepKeepsBounds(w: World, l: Label)
    requires AllBounded(w) && (SortOf(l).Configuring? ==> Bounded(l.on.settings))
    ensures AllBounded(Apply(w, l))
  {
    if Enabled(w, l) {
      match l
      case OnServer(s, e) =>
        hide SortOf, Enabled, AllBounded;
        ConfigureSorted(s, e);
        ServerKeepsBounds(w, s, e);
      case _ =>
        OthersKeepServers(w, l);
    }
  }

  lemma ConfigureSorted(s: nat, e: ServerStep)
    ensures SortOf(OnServer(s, e)).Configuring? <==> e.Configure?
  {
  }

  lemma ServerKeepsBounds(w: World, s: nat, e: ServerStep)
    requires AllBounded(w) && ServerEnabled(w, s, e) && (e.Configure? ==> Bounded(e.settings))
    ensures AllBounded(ApplyServer(w, s, e))
  {
  }

  /** A history that ends with steps none of which saves settings. */
  lemma {:induction false} BoundsWithoutSaving(start: World, before: seq<Label>, after: seq<Label>, sorts: set<Sort>)
    requires Only(before, after, sorts) && Configuring !in sorts && AllBounded(Exec(start, before))
    ensures AllBounded(Exec(start, after))
    decreases |after|
  {
    hide AllBounded, Apply;
    if |after| == |before| {
      assert after == before;
    } else {
      var front := after[..|after| - 1];
      BoundsWithoutSaving(start, before, front, sorts);
      StepKeepsBounds(Exec(start, front), after[|after| - 1]);
    }
  }

  /** Saves the form, unless its time is refused. */
  method SaveBackupSettings(a: Appliance, s: nat, form: BackupForm) returns (saved: bool)
    requires a.Valid() && s in a.servers
    modifies a
    ensures a.Valid() && Only(old(a.log), a.log, {Configuring})
    ensures saved <==> AcceptedTime(Strip(form.time))
    ensures saved <==> exists i :: 0 <= i < |Strip(form.time)| && TimeAt(Strip(form.time), i)
    ensures saved ==> s in a.servers && Stored(old(a.servers[s].settings), form, a.servers[s].settings)
    ensures saved ==> a.servers == old(a.servers)[s := old(a.servers)[s].(settings := Filled(old(a.servers)[s].settings, form).value)]
    ensures !saved ==> a.W() == old(a.W())
    ensures AllBounded(old(a.W())) ==> AllBounded(a.W())
  {
    hide Appliance.Valid, Strip, AcceptedTime, Checked, Clamped, Only, Stored, TimeAt;
    NoneYet(a.log, {Configuring});
    FilledIff(a.servers[s].settings, form);
    var filled := Filled(a.servers[s].settings, form);
    if filled.None? {
      return false;
    }
    FormIsBounded(a.servers[s].settings, form);
    OneMore(a.log, a.log, OnServer(s, Configure(filled.value)), {Configuring});
    a.SaveSettings(s, filled.value);
    return true;
  }
}
