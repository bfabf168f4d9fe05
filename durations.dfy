/** `nice_duration` and `nice_relative_time`: a number of seconds broken into
    days, hours, minutes and seconds and rendered in words ("one hour twenty
    three minutes twenty seconds") or digits ("1:23:20", "5d 18:53:20"), and
    the distance between two instants in its single coarsest unit
    ("2 hours", "4 days"). */
module Durations {
  import opened Options
  import opened Text
  import opened Numerals

  const SecondsPerMinute := 60
  const SecondsPerHour := 3600
  const SecondsPerDay := 86400

  /** A span broken into whole units. */
  datatype Span = Span(days: nat, hours: nat, minutes: nat, seconds: nat)

  predicate Normal(sp: Span)
  {
    sp.hours < 24 && sp.minutes < 60 && sp.seconds < 60
  }

  function SpanSeconds(sp: Span): nat
  {
    sp.days * SecondsPerDay + sp.hours * SecondsPerHour + sp.minutes * SecondsPerMinute + sp.seconds
  }

  /** Floor division cascading down from days to seconds. */
  function Decompose(total: nat): (sp: Span)
    ensures Normal(sp) && SpanSeconds(sp) == total
  {
    var sp := Span(total / 86400, total / 3600 % 24, total / 60 % 60, total % 60);
    assert total / 3600 == (total / 86400) * 24 + total / 3600 % 24;
    assert total / 60 == (total / 3600) * 60 + total / 60 % 60;
    sp
  }

  /** A normal span is the only one that adds up to its total. */
  lemma DecomposeSpan(sp: Span)
    requires Normal(sp)
    ensures Decompose(SpanSeconds(sp)) == sp
  {
    var t := SpanSeconds(sp);
    var m := (sp.days * 24 + sp.hours) * 60 + sp.minutes;
    assert t == m * 60 + sp.seconds;
    assert t / 60 == m && t % 60 == sp.seconds;
    var h := sp.days * 24 + sp.hours;
    assert m == h * 60 + sp.minutes;
    assert m / 60 == h && m % 60 == sp.minutes;
    assert t / 3600 == h by {
      assert t == h * 3600 + (sp.minutes * 60 + sp.seconds);
    }
    assert h / 24 == sp.days && h % 24 == sp.hours;
    assert t / 86400 == sp.days by {
      assert t == sp.days * 86400 + (sp.hours * 3600 + sp.minutes * 60 + sp.seconds);
    }
  }

  /** A `datetime.timedelta` as Python normalises it: whole days, seconds
      within the day and microseconds within the second. */
  datatype TimeDelta = TimeDelta(days: nat, seconds: nat, microseconds: nat)

  /** `timedelta(seconds=n)`. */
  function FromSeconds(n: nat): (td: TimeDelta)
    ensures td.seconds < SecondsPerDay
  {
    TimeDelta(n / 86400, n % 86400, 0)
  }

  /** A duration as `nice_duration` accepts it: a count of seconds or a
      timedelta. */
  datatype DurationArg = Secs(n: nat) | Delta(td: TimeDelta)

  /** The whole seconds of the argument; a fraction of a second is dropped. */
  function WholeSeconds(arg: DurationArg): nat
  {
    match arg
    case Secs(n) => n
    case Delta(td) => td.days * SecondsPerDay + td.seconds + td.microseconds / 1000000
  }

  /** A count in words; only a count beyond the named scales, which no real
      duration reaches, falls back to digits. */
  function CountWords(n: nat): (s: string)
    ensures InRange(n, true) ==> PronounceNumber(n, true, false) == Spelled(s)
  {
    match PronounceNumber(n, true, false)
    case Spelled(t) => t
    case Scientific => NatToString(n)
  }

  /** "one second", "three seconds": the unit is singular exactly for one. */
  function UnitPhrase(count: nat, unit: string): (s: string)
    ensures s == CountWords(count) + " " + unit || s == CountWords(count) + " " + unit + "s"
    ensures s == CountWords(count) + " " + unit <==> count == 1
  {
    if count == 1 then CountWords(count) + " " + unit
    else
      assert |CountWords(count) + " " + unit + "s"| > |CountWords(count) + " " + unit|;
      CountWords(count) + " " + unit + "s"
  }

  /** One step of the spoken rendering: a non-zero unit is added after a
      space when something precedes it; a zero unit adds nothing. */
  function AddUnit(out: string, count: nat, unit: string): string
  {
    if count == 0 then out
    else (if out != "" then out + " " else out) + UnitPhrase(count, unit)
  }

  /** The spoken form. The day phrase carries a trailing space of its own, so
      the next unit follows it after two spaces ("five days  eighteen
      hours"). */
  function SpokenDuration(total: nat): string
  {
    var sp := Decompose(total);
    var out := if sp.days > 0 then UnitPhrase(sp.days, "day") + " " else "";
    AddUnit(AddUnit(AddUnit(out, sp.hours, "hour"), sp.minutes, "minute"), sp.seconds, "second")
  }

  /** The non-zero units below a day, as phrases, largest first. */
  function SubDayPhrases(sp: Span): (ps: seq<string>)
    ensures |ps| <= 3
  {
    (if sp.hours > 0 then [UnitPhrase(sp.hours, "hour")] else []) +
    (if sp.minutes > 0 then [UnitPhrase(sp.minutes, "minute")] else []) +
    (if sp.seconds > 0 then [UnitPhrase(sp.seconds, "second")] else [])
  }

  /** The spoken form from a day on: the day phrase, its trailing space, and
      the smaller units after one more space. */
  function AfterDays(d: string, ps: seq<string>): string
  {
    d + (if ps == [] then "" else " " + Unwords(ps))
  }

  lemma JoinNonEmpty(ps: seq<string>)
    requires ps != [] && ps[0] != ""
    ensures Unwords(ps) != ""
  {
    JoinLength(ps);
  }

  lemma AddUnitAppends(ps: seq<string>, count: nat, unit: string)
    requires ps != [] ==> ps[0] != ""
    ensures AddUnit(Unwords(ps), count, unit) ==
      Unwords(ps + (if count > 0 then [UnitPhrase(count, unit)] else []))
  {
    if count > 0 {
      var p := UnitPhrase(count, unit);
      if ps == [] {
        assert ps + [p] == [p];
      } else {
        JoinNonEmpty(ps);
        JoinWithAppend(" ", ps, p);
      }
    } else {
      assert ps + [] == ps;
    }
  }

  lemma AddUnitAfterDays(d: string, ps: seq<string>, count: nat, unit: string)
    requires d != ""
    ensures AddUnit(AfterDays(d, ps), count, unit) ==
      AfterDays(d, ps + (if count > 0 then [UnitPhrase(count, unit)] else []))
  {
    if count > 0 {
      var p := UnitPhrase(count, unit);
      var out := AfterDays(d, ps);
      assert |out| >= |d|;
      assert AddUnit(out, count, unit) == out + " " + p;
      if ps == [] {
        assert ps + [p] == [p];
        assert out == d;
      } else {
        var u := Unwords(ps);
        JoinWithAppend(" ", ps, p);
        assert Unwords(ps + [p]) == u + " " + p;
        assert out == d + " " + u;
        assert AfterDays(d, ps + [p]) == d + " " + (u + " " + p);
      }
    } else {
      assert ps + [] == ps;
    }
  }

  /** The day phrase's own trailing space reads as an empty word between it
      and the smaller units. */
  lemma AfterDaysAsWords(d: string, ps: seq<string>)
    requires ps != []
    ensures AfterDays(d + " ", ps) == Unwords([d, ""] + ps)
  {
    var ws := [d, ""] + ps;
    assert ws[1..] == [""] + ps;
    assert ws[1..][1..] == ps;
    assert Unwords([""] + ps) == "" + " " + Unwords(ps);
  }

  /** The non-zero units below a day, built up one unit at a time. */
  lemma SubDayPhrasesSteps(sp: Span)
    ensures var h := if sp.hours > 0 then [UnitPhrase(sp.hours, "hour")] else [];
      var hm := h + (if sp.minutes > 0 then [UnitPhrase(sp.minutes, "minute")] else []);
      SubDayPhrases(sp) == hm + (if sp.seconds > 0 then [UnitPhrase(sp.seconds, "second")] else []) &&
      h == [] + h && (hm != [] ==> hm[0] != "") && (h != [] ==> h[0] != "")
  {
  }

  /** What the spoken form says: the non-zero units, largest first, each
      with its count in words and singular only for one, separated by
      spaces; a day phrase is set off by two spaces and keeps its own
      trailing space. */
  lemma SpokenNamesNonZeroUnits(total: nat)
    ensures var sp := Decompose(total);
      SpokenDuration(total) ==
        if sp.days == 0 then Unwords(SubDayPhrases(sp))
        else AfterDays(UnitPhrase(sp.days, "day") + " ", SubDayPhrases(sp))
  {
    var sp := Decompose(total);
    var h := if sp.hours > 0 then [UnitPhrase(sp.hours, "hour")] else [];
    var hm := h + (if sp.minutes > 0 then [UnitPhrase(sp.minutes, "minute")] else []);
    SubDayPhrasesSteps(sp);
    if sp.days == 0 {
      AddUnitAppends([], sp.hours, "hour");
      AddUnitAppends(h, sp.minutes, "minute");
      AddUnitAppends(hm, sp.seconds, "second");
    } else {
      var d := UnitPhrase(sp.days, "day") + " ";
      assert AfterDays(d, []) == d;
      AddUnitAfterDays(d, [], sp.hours, "hour");
      AddUnitAfterDays(d, h, sp.minutes, "minute");
      AddUnitAfterDays(d, hm, sp.seconds, "second");
    }
  }

  /** The digital form: "M:SS" below an hour, "H:MM:SS" below a day and
      "Dd HH:MM:SS" from a day on. */
  function DigitalDuration(total: nat): string
  {
    var sp := Decompose(total);
    if sp.days > 0 then
      NatToString(sp.days) + "d " + Pad2(sp.hours) + ":" + Pad2(sp.minutes) + ":" + Pad2(sp.seconds)
    else if sp.hours > 0 then
      NatToString(sp.hours) + ":" + Pad2(sp.minutes) + ":" + Pad2(sp.seconds)
    else
      NatToString(sp.minutes) + ":" + Pad2(sp.seconds)
  }

  /** `nice_duration(duration, speech)`: the digital form reads back as the
      whole number of seconds; the spoken form names the non-zero units,
      largest first, each with its count in words. */
  function NiceDuration(arg: DurationArg, speech: bool): (s: string)
    ensures speech ==> s == SpokenDuration(WholeSeconds(arg))
    ensures !speech ==> s == DigitalDuration(WholeSeconds(arg))
    ensures !speech ==> ReadDigitalDuration(s) == Some(WholeSeconds(arg))
    ensures speech ==> var sp := Decompose(WholeSeconds(arg));
      s == if sp.days == 0 then Unwords(SubDayPhrases(sp))
           else AfterDays(UnitPhrase(sp.days, "day") + " ", SubDayPhrases(sp))
  {
    var total := WholeSeconds(arg);
    DigitalReadsBack(total);
    SpokenNamesNonZeroUnits(total);
    if speech then SpokenDuration(total) else DigitalDuration(total)
  }

  /** A timedelta renders exactly as its number of seconds does. */
  lemma TimeDeltaAsSeconds(n: nat, speech: bool)
    ensures NiceDuration(Delta(FromSeconds(n)), speech) == NiceDuration(Secs(n), speech)
  {
    assert WholeSeconds(Delta(FromSeconds(n))) == n;
  }

  // Reading the digital form back.

  /** The pieces of `s` between occurrences of `c` (Python's `s.split(c)`). */
  function Split(s: string, c: char): (r: seq<string>)
    ensures |r| >= 1
    decreases |s|
  {
    if s == "" then [""]
    else if s[0] == c then [""] + Split(s[1..], c)
    else
      var rest := Split(s[1..], c);
      [[s[0]] + rest[0]] + rest[1..]
  }

  lemma {:induction false} SplitNone(a: string, c: char)
    requires c !in a
    ensures Split(a, c) == [a]
    decreases |a|
  {
    if a != "" {
      SplitNone(a[1..], c);
      assert [a[0]] + a[1..] == a;
    }
  }

  lemma {:induction false} SplitAt(a: string, c: char, b: string)
    requires c !in a
    ensures Split(a + [c] + b, c) == [a] + Split(b, c)
    decreases |a|
  {
    var s := a + [c] + b;
    if a == "" {
      assert s == [c] + b;
      assert s[1..] == b;
    } else {
      assert s[0] == a[0];
      assert s[1..] == a[1..] + [c] + b;
      SplitAt(a[1..], c, b);
      assert [a[0]] + a[1..] == a;
    }
  }

  lemma DigitsHaveNo(s: string, c: char)
    requires IsDigits(s) && !IsDigit(c)
    ensures c !in s
  {
    forall i | 0 <= i < |s|
      ensures s[i] != c
    {
      assert IsDigit(s[i]);
    }
  }

  /** A clock reading in base 60: "1:23:20" is 5000. */
  function Sexagesimal(fs: seq<string>): nat
    requires forall i :: 0 <= i < |fs| ==> IsDigits(fs[i])
    decreases |fs|
  {
    if fs == [] then 0 else Sexagesimal(fs[..|fs| - 1]) * 60 + ParseNat(fs[|fs| - 1])
  }

  /** Reads "M:SS" or "H:MM:SS" as seconds. */
  function ReadClock(s: string): Option<nat>
  {
    ReadFields(Split(s, ':'))
  }

  /** Two or three digit fields read in base 60. */
  function ReadFields(fs: seq<string>): Option<nat>
  {
    if 2 <= |fs| <= 3 && forall i :: 0 <= i < |fs| ==> IsDigits(fs[i]) then Some(Sexagesimal(fs))
    else None
  }

  /** Reads a digital duration, with an optional "Dd " day field, as seconds. */
  function ReadDigitalDuration(s: string): Option<nat>
  {
    var parts := Split(s, ' ');
    if |parts| == 1 then ReadClock(s)
    else if |parts| == 2 && |parts[0]| >= 2 && parts[0][|parts[0]| - 1] == 'd' &&
      IsDigits(parts[0][..|parts[0]| - 1]) then
      match ReadClock(parts[1])
      case None => None
      case Some(v) => Some(ParseNat(parts[0][..|parts[0]| - 1]) * SecondsPerDay + v)
    else None
  }

  lemma SplitTwo(a: string, b: string)
    requires IsDigits(a) && IsDigits(b)
    ensures Split(a + ":" + b, ':') == [a, b]
  {
    DigitsHaveNo(a, ':');
    DigitsHaveNo(b, ':');
    SplitAt(a, ':', b);
    SplitNone(b, ':');
  }

  lemma SplitThree(a: string, b: string, c: string)
    requires IsDigits(a) && IsDigits(b) && IsDigits(c)
    ensures Split(a + ":" + b + ":" + c, ':') == [a, b, c]
  {
    DigitsHaveNo(a, ':');
    assert a + ":" + b + ":" + c == a + [':'] + (b + ":" + c);
    SplitAt(a, ':', b + ":" + c);
    SplitTwo(b, c);
  }

  lemma SexagesimalOne(a: string)
    requires IsDigits(a)
    ensures Sexagesimal([a]) == ParseNat(a)
  {
    assert [a][..0] == [];
  }

  lemma SexagesimalTwo(a: string, b: string)
    requires IsDigits(a) && IsDigits(b)
    ensures Sexagesimal([a, b]) == ParseNat(a) * 60 + ParseNat(b)
  {
    assert [a, b][..1] == [a];
    SexagesimalOne(a);
  }

  lemma SexagesimalThree(a: string, b: string, c: string)
    requires IsDigits(a) && IsDigits(b) && IsDigits(c)
    ensures Sexagesimal([a, b, c]) == Sexagesimal([a, b]) * 60 + ParseNat(c)
  {
    assert [a, b, c][..2] == [a, b];
  }

  /** The clock part of a digital duration reads back as what it shows. */
  lemma ReadTwoFields(a: string, b: string)
    requires IsDigits(a) && IsDigits(b)
    ensures ReadClock(a + ":" + b) == Some(ParseNat(a) * 60 + ParseNat(b))
  {
    SplitTwo(a, b);
    SexagesimalTwo(a, b);
    assert ReadFields([a, b]) == Some(Sexagesimal([a, b]));
  }

  lemma SexagesimalHours(a: string, b: string, c: string, h: nat, m: nat, sec: nat)
    requires IsDigits(a) && IsDigits(b) && IsDigits(c)
    requires ParseNat(a) == h && ParseNat(b) == m && ParseNat(c) == sec
    ensures Sexagesimal([a, b, c]) == (h * 60 + m) * 60 + sec
  {
    SexagesimalThree(a, b, c);
    SexagesimalTwo(a, b);
  }

  lemma ThreeDigitFields(a: string, b: string, c: string)
    requires IsDigits(a) && IsDigits(b) && IsDigits(c)
    ensures ReadFields([a, b, c]) == Some(Sexagesimal([a, b, c]))
  {
    var fs := [a, b, c];
    assert IsDigits(fs[0]) && IsDigits(fs[1]) && IsDigits(fs[2]);
    assert forall i :: 0 <= i < |fs| ==> IsDigits(fs[i]);
  }

  /** "H:MM:SS" whose fields read h, m and sec reads back in base 60. */
  lemma ReadThreeFields(a: string, b: string, c: string, h: nat, m: nat, sec: nat)
    requires IsDigits(a) && IsDigits(b) && IsDigits(c)
    requires ParseNat(a) == h && ParseNat(b) == m && ParseNat(c) == sec
    ensures ReadClock(a + ":" + b + ":" + c) == Some((h * 60 + m) * 60 + sec)
  {
    SplitThree(a, b, c);
    ThreeDigitFields(a, b, c);
    SexagesimalHours(a, b, c, h, m, sec);
  }

  lemma NoSpaceInClock(s: string, a: string, b: string, c: string)
    requires IsDigits(a) && IsDigits(b) && IsDigits(c)
    requires s == a + ":" + b + ":" + c || s == a + ":" + b
    ensures ' ' !in s
  {
    DigitsHaveNo(a, ' ');
    DigitsHaveNo(b, ' ');
    DigitsHaveNo(c, ' ');
  }

  lemma ReadBackDays(total: nat)
    requires Decompose(total).days > 0
    ensures ReadDigitalDuration(DigitalDuration(total)) == Some(total)
  {
    var sp := Decompose(total);
    ReadDayFields(total);
    assert SpanSeconds(sp) == total;
  }

  /** With a day field, the digital form reads back field by field. */
  lemma ReadDayFields(total: nat)
    requires Decompose(total).days > 0
    ensures var sp := Decompose(total);
      ReadDigitalDuration(DigitalDuration(total)) ==
        Some(sp.days * SecondsPerDay + ((sp.hours * 60 + sp.minutes) * 60 + sp.seconds))
  {
    var sp := Decompose(total);
    var d, hh, mm, ss := NatToString(sp.days), Pad2(sp.hours), Pad2(sp.minutes), Pad2(sp.seconds);
    var clock := hh + ":" + mm + ":" + ss;
    var day := d + "d";
    NoSpaceInClock(clock, hh, mm, ss);
    DayForm(total);
    SplitDayField(d, clock);
    assert day[..|day| - 1] == d;
    ReadThreeFields(hh, mm, ss, sp.hours, sp.minutes, sp.seconds);
    ParseNatToString(sp.days);
    var v := (sp.hours * 60 + sp.minutes) * 60 + sp.seconds;
    assert ReadClock(clock) == Some(v);
  }

  /** The digital form with a day field: the days, "d", a space, and the
      zero-padded clock. */
  lemma DayForm(total: nat)
    requires Decompose(total).days > 0
    ensures var sp := Decompose(total);
      DigitalDuration(total) == NatToString(sp.days) + "d" + [' '] +
        (Pad2(sp.hours) + ":" + Pad2(sp.minutes) + ":" + Pad2(sp.seconds))
  {
    var sp := Decompose(total);
    assert "d " == "d" + [' '];
  }

  /** The day field and the clock are the two space-separated fields. */
  lemma SplitDayField(d: string, clock: string)
    requires IsDigits(d) && ' ' !in clock
    ensures Split(d + "d" + [' '] + clock, ' ') == [d + "d", clock]
  {
    DigitsHaveNo(d, ' ');
    assert ' ' !in d + "d";
    SplitAt(d + "d", ' ', clock);
    SplitNone(clock, ' ');
  }

  lemma ReadBackHours(total: nat)
    requires Decompose(total).days == 0 && Decompose(total).hours > 0
    ensures ReadDigitalDuration(DigitalDuration(total)) == Some(total)
  {
    var sp := Decompose(total);
    var hs, mm, ss := NatToString(sp.hours), Pad2(sp.minutes), Pad2(sp.seconds);
    var clock := hs + ":" + mm + ":" + ss;
    assert DigitalDuration(total) == clock;
    NoSpaceInClock(clock, hs, mm, ss);
    SplitNone(clock, ' ');
    ParseNatToString(sp.hours);
    ReadThreeFields(hs, mm, ss, sp.hours, sp.minutes, sp.seconds);
  }

  lemma ReadBackMinutes(total: nat)
    requires Decompose(total).days == 0 && Decompose(total).hours == 0
    ensures ReadDigitalDuration(DigitalDuration(total)) == Some(total)
  {
    var sp := Decompose(total);
    var ms, ss := NatToString(sp.minutes), Pad2(sp.seconds);
    var clock := ms + ":" + ss;
    assert DigitalDuration(total) == clock;
    NoSpaceInClock(clock, ms, ss, ss);
    SplitNone(clock, ' ');
    ReadTwoFields(ms, ss);
    ParseNatToString(sp.minutes);
  }

  /** The digital form reads back as the duration it renders. */
  lemma DigitalReadsBack(total: nat)
    ensures ReadDigitalDuration(DigitalDuration(total)) == Some(total)
  {
    var sp := Decompose(total);
    if sp.days > 0 {
      ReadBackDays(total);
    } else if sp.hours > 0 {
      ReadBackHours(total);
    } else {
      ReadBackMinutes(total);
    }
  }

  // Relative time.

  /** The units `nice_relative_time` chooses from, coarsest first. */
  datatype TimeUnit = Days | Hours | Minutes | Seconds

  function UnitSeconds(u: TimeUnit): (n: nat)
    ensures n >= 1
  {
    match u
    case Days => SecondsPerDay
    case Hours => SecondsPerHour
    case Minutes => SecondsPerMinute
    case Seconds => 1
  }

  function UnitName(u: TimeUnit): string
  {
    match u
    case Days => "day"
    case Hours => "hour"
    case Minutes => "minute"
    case Seconds => "second"
  }

  /** The coarsest unit of which the distance holds at least one whole. */
  function CoarsestUnit(delta: nat): (u: TimeUnit)
    ensures u == Seconds || UnitSeconds(u) <= delta
    ensures u != Days ==> delta < SecondsPerDay
    ensures u != Days && u != Hours ==> delta < SecondsPerHour
    ensures u == Seconds ==> delta < SecondsPerMinute
  {
    if delta >= SecondsPerDay then Days
    else if delta >= SecondsPerHour then Hours
    else if delta >= SecondsPerMinute then Minutes
    else Seconds
  }

  /** The count of `u` nearest to `delta`, halves rounded up. */
  function RoundedCount(delta: nat, u: TimeUnit): (n: nat)
    ensures var k := UnitSeconds(u);
      n * k <= delta + k / 2 && delta + k / 2 < n * k + k
  {
    (delta + UnitSeconds(u) / 2) / UnitSeconds(u)
  }

  /** `nice_relative_time(when, relative_to)` with both instants as seconds
      on one time line: the size of the gap, in its coarsest unit, rounded
      within that unit. */
  function NiceRelativeTime(when: int, relativeTo: int): (r: string)
    ensures var delta := Abs(when - relativeTo); var u := CoarsestUnit(delta);
      var n := RoundedCount(delta, u); var k := |NatToString(n)|;
      k < |r| && IsDigits(r[..k]) && ParseNat(r[..k]) == n &&
      r[k..] == " " + UnitName(u) + (if n == 1 then "" else "s") &&
      (when != relativeTo ==> n >= 1)
  {
    RelativeCountIsNearest(Abs(when - relativeTo));
    var delta := Abs(when - relativeTo);
    var u := CoarsestUnit(delta);
    var n := RoundedCount(delta, u);
    var tail := " " + UnitName(u) + (if n == 1 then "" else "s");
    CountThenWords(n, tail);
    NatToString(n) + tail
  }

  /** A count written in digits and followed by words starts with the
      digits, which read back as the count. */
  lemma CountThenWords(n: nat, tail: string)
    ensures var k := |NatToString(n)|; var r := NatToString(n) + tail;
      k <= |r| && r[..k] == NatToString(n) && r[k..] == tail &&
      IsDigits(r[..k]) && ParseNat(r[..k]) == n
  {
    ParseNatToString(n);
  }

  /** A gap of at least a second never reads as zero of its unit, and the
      count is within half a unit of the gap. */
  lemma RelativeCountIsNearest(delta: nat)
    ensures var u := CoarsestUnit(delta); var n := RoundedCount(delta, u);
      (delta >= 1 ==> n >= 1) && n * UnitSeconds(u) <= delta + UnitSeconds(u) / 2 &&
      delta < n * UnitSeconds(u) + UnitSeconds(u) - UnitSeconds(u) / 2
  {
  }

  /** Which instant comes first does not matter. */
  lemma RelativeTimeSymmetric(a: int, b: int)
    ensures NiceRelativeTime(a, b) == NiceRelativeTime(b, a)
  {
    assert Abs(a - b) == Abs(b - a);
  }
}
