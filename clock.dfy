/** Clock times as `nice_time` renders them in English: digital ("1:22 PM",
    "13:22") or spoken ("one twenty two p.m.", "quarter to two",
    "thirteen hundred"), on a 12- or 24-hour clock. */
module Clock {
  import opened Text
  import opened EnglishWords
  import opened Numerals

  /** The hour and minute of the instant being rendered (seconds, date and
      time zone play no part). */
  datatype ClockTime = ClockTime(hour: nat, minute: nat)

  predicate ValidTime(t: ClockTime)
  {
    t.hour < 24 && t.minute < 60
  }

  /** The words `pronounce_number` reads 1..99 as. */
  function NumberWords(n: nat): (ws: seq<string>)
    requires 1 <= n < 100
    ensures 1 <= |ws| <= 2
    ensures PronounceNumber(n, true, false) == Spelled(Unwords(ws))
  {
    BelowHundred(n, true);
    Texts(SubHundred(n))
  }

  /** The hour on a 12-hour dial: 0 and 12 are "12", 13 is "1". */
  function Hour12(h: nat): (r: nat)
    ensures 1 <= r <= 12
    ensures r % 12 == h % 12
  {
    if h % 12 == 0 then 12 else h % 12
  }

  /** A number below 100 read as two digits on the 24-hour clock: "zero"
      before a single digit ("zero two", "zero zero"), the plain number
      otherwise ("thirteen", "twenty two"). */
  function TwoDigitWords(n: nat): (ws: seq<string>)
    requires n < 100
    ensures n < 10 ==> ws == ["zero", SmallNames[n]]
    ensures n >= 10 ==> ws == NumberWords(n)
  {
    if n < 10 then ["zero", SmallNames[n]] else NumberWords(n)
  }

  /** "a.m." before noon, "p.m." from noon. */
  function Meridiem(h: nat): string
  {
    if h < 12 then "a.m." else "p.m."
  }

  /** The spoken 24-hour time: the hour as two digits, then "hundred" on the
      hour or the minute as two digits. */
  function Speech24(t: ClockTime): (ws: seq<string>)
    requires ValidTime(t)
  {
    TwoDigitWords(t.hour) + (if t.minute == 0 then ["hundred"] else TwoDigitWords(t.minute))
  }

  /** The spoken 12-hour time without the a.m./p.m. word. */
  function Speech12Core(t: ClockTime, useAmPm: bool): (ws: seq<string>)
    requires ValidTime(t)
  {
    var h := NumberWords(Hour12(t.hour));
    if t.minute == 0 then h + (if useAmPm then [] else ["o'clock"])
    else if t.minute == 15 then ["quarter", "past"] + h
    else if t.minute == 30 then ["half", "past"] + h
    else if t.minute == 45 then ["quarter", "to"] + NumberWords(Hour12(t.hour + 1))
    else if t.minute < 10 then h + ["oh"] + NumberWords(t.minute)
    else h + NumberWords(t.minute)
  }

  /** The spoken 12-hour time. */
  function Speech12(t: ClockTime, useAmPm: bool): (ws: seq<string>)
    requires ValidTime(t)
  {
    Speech12Core(t, useAmPm) + (if useAmPm then [Meridiem(t.hour)] else [])
  }

  /** "HH:MM", both fields zero-padded. */
  function Digital24(t: ClockTime): (s: string)
    requires ValidTime(t)
    ensures |s| == 5 && s[2] == ':'
    ensures IsDigits(s[..2]) && ParseNat(s[..2]) == t.hour
    ensures IsDigits(s[3..]) && ParseNat(s[3..]) == t.minute
  {
    var s := Pad2(t.hour) + ":" + Pad2(t.minute);
    assert s[..2] == Pad2(t.hour) && s[3..] == Pad2(t.minute);
    s
  }

  /** "H:MM" with the unpadded 12-hour dial hour, then " AM"/" PM" when
      asked for. */
  function Digital12(t: ClockTime, useAmPm: bool): (s: string)
    requires ValidTime(t)
    ensures var k := |NatToString(Hour12(t.hour))|;
      k + 3 <= |s| && IsDigits(s[..k]) && ParseNat(s[..k]) == Hour12(t.hour) && s[k] == ':' &&
      IsDigits(s[k + 1..k + 3]) && ParseNat(s[k + 1..k + 3]) == t.minute &&
      s[k + 3..] == (if !useAmPm then "" else if t.hour < 12 then " AM" else " PM")
  {
    var hs := NatToString(Hour12(t.hour));
    var suffix := if !useAmPm then "" else if t.hour < 12 then " AM" else " PM";
    var s := hs + ":" + Pad2(t.minute) + suffix;
    ParseNatToString(Hour12(t.hour));
    assert s[..|hs|] == hs;
    assert s[|hs| + 1..|hs| + 3] == Pad2(t.minute);
    assert s[|hs| + 3..] == suffix;
    s
  }

  /** `nice_time` on an English locale. */
  function NiceTime(t: ClockTime, speech: bool, use24Hour: bool, useAmPm: bool): (s: string)
    requires ValidTime(t)
    ensures speech && use24Hour ==> s == Unwords(Speech24(t))
    ensures speech && !use24Hour ==> s == Unwords(Speech12(t, useAmPm))
    ensures !speech && use24Hour ==> s == Digital24(t)
    ensures !speech && !use24Hour ==> s == Digital12(t, useAmPm)
  {
    if speech then
      if use24Hour then Unwords(Speech24(t)) else Unwords(Speech12(t, useAmPm))
    else
      if use24Hour then Digital24(t) else Digital12(t, useAmPm)
  }

  /** The 24-hour clock takes no notice of the a.m./p.m. switch. */
  lemma AmPmIgnoredOn24Hour(t: ClockTime, speech: bool)
    requires ValidTime(t)
    ensures NiceTime(t, speech, true, true) == NiceTime(t, speech, true, false)
  {
  }

  /** Off the hour the spoken 12-hour time has words and does not depend on
      the a.m./p.m. switch. */
  lemma CoreIgnoresAmPm(t: ClockTime)
    requires ValidTime(t) && t.minute != 0
    ensures Speech12Core(t, true) == Speech12Core(t, false) != []
  {
    assert |NumberWords(Hour12(t.hour))| >= 1;
    assert |NumberWords(Hour12(t.hour + 1))| >= 1;
  }

  /** Off the hour, asking for a.m./p.m. only appends it to the spoken time. */
  lemma AmPmAppends(t: ClockTime)
    requires ValidTime(t) && t.minute != 0
    ensures NiceTime(t, true, false, true) == NiceTime(t, true, false, false) + " " + Meridiem(t.hour)
  {
    CoreIgnoresAmPm(t);
    var core := Speech12Core(t, false);
    assert Speech12(t, true) == core + [Meridiem(t.hour)];
    assert Speech12(t, false) == core;
    JoinWithAppend(" ", core, Meridiem(t.hour));
  }

  /** On the hour the 12-hour speech says "o'clock", or the a.m./p.m. word
      in its place. */
  lemma OnTheHour(t: ClockTime, useAmPm: bool)
    requires ValidTime(t) && t.minute == 0
    ensures Speech12(t, useAmPm) ==
      NumberWords(Hour12(t.hour)) + [if useAmPm then Meridiem(t.hour) else "o'clock"]
  {
  }

  /** The next hour on the dial wraps from twelve to one. */
  lemma NextHourOnDial(h: nat)
    ensures Hour12(h + 1) == (if Hour12(h) == 12 then 1 else Hour12(h) + 1)
  {
  }

  /** On the hour the 12-hour speech without a.m./p.m. is the hour, then
      "o'clock" ("one o'clock"). */
  lemma SpokenOClock(t: ClockTime)
    requires ValidTime(t) && t.minute == 0
    ensures NiceTime(t, true, false, false) == Unwords(NumberWords(Hour12(t.hour))) + " o'clock"
  {
    JoinWithAppend(" ", NumberWords(Hour12(t.hour)), "o'clock");
  }

  /** Two words ahead of a non-empty list are joined before it. */
  lemma TwoWordsThen(x: string, y: string, h: seq<string>)
    requires h != []
    ensures Unwords([x, y] + h) == x + " " + y + " " + Unwords(h)
  {
    JoinWithConcat(" ", [x, y], h);
    JoinWithAppend(" ", [x], y);
    assert [x] + [y] == [x, y];
  }

  /** At a quarter past the speech is "quarter past" and the hour
      ("quarter past one"). */
  lemma SpokenQuarterPast(t: ClockTime)
    requires ValidTime(t) && t.minute == 15
    ensures NiceTime(t, true, false, false) == "quarter past " + Unwords(NumberWords(Hour12(t.hour)))
  {
    var h := NumberWords(Hour12(t.hour));
    assert Speech12(t, false) == ["quarter", "past"] + h;
    TwoWordsThen("quarter", "past", h);
    assert "quarter" + " " + "past" + " " == "quarter past ";
  }

  /** At half past the speech is "half past" and the hour ("half past one"). */
  lemma SpokenHalfPast(t: ClockTime)
    requires ValidTime(t) && t.minute == 30
    ensures NiceTime(t, true, false, false) == "half past " + Unwords(NumberWords(Hour12(t.hour)))
  {
    var h := NumberWords(Hour12(t.hour));
    assert Speech12(t, false) == ["half", "past"] + h;
    TwoWordsThen("half", "past", h);
    assert "half" + " " + "past" + " " == "half past ";
  }

  /** At a quarter to the speech is "quarter to" and the NEXT hour on the
      dial (see `NextHourOnDial`), so 12:45 is "quarter to one" and 23:45
      "quarter to twelve". */
  lemma SpokenQuarterTo(t: ClockTime)
    requires ValidTime(t) && t.minute == 45
    ensures NiceTime(t, true, false, false) == "quarter to " + Unwords(NumberWords(Hour12(t.hour + 1)))
  {
    var h := QuarterToWords(t);
    TwoWordsThen("quarter", "to", h);
    assert "quarter" + " " + "to" + " " == "quarter to ";
  }

  /** The words said at a quarter to, before they are joined. */
  lemma QuarterToWords(t: ClockTime) returns (h: seq<string>)
    requires ValidTime(t) && t.minute == 45
    ensures h == NumberWords(Hour12(t.hour + 1)) && h != []
    ensures Speech12(t, false) == ["quarter", "to"] + h
  {
    var next := Hour12(t.hour + 1);
    assert 1 <= next <= 12;
    h := NumberWords(next);
    assert Speech12Core(t, false) == ["quarter", "to"] + h;
  }

  /** A minute from one to nine is read after "oh" ("one oh two"). */
  lemma SpokenOhMinutes(t: ClockTime)
    requires ValidTime(t) && 0 < t.minute < 10
    ensures NiceTime(t, true, false, false) ==
      Unwords(NumberWords(Hour12(t.hour))) + " oh " + SmallNames[t.minute]
  {
    var h := NumberWords(Hour12(t.hour));
    assert NumberWords(t.minute) == [SmallNames[t.minute]];
    assert Speech12(t, false) == (h + ["oh"]) + [SmallNames[t.minute]];
    JoinWithAppend(" ", h + ["oh"], SmallNames[t.minute]);
    JoinWithAppend(" ", h, "oh");
  }

  /** Any other minute is read as a number after the hour ("one twenty
      two", "seven fifty nine"). */
  lemma SpokenOtherMinutes(t: ClockTime)
    requires ValidTime(t) && t.minute >= 10 && t.minute !in {15, 30, 45}
    ensures NiceTime(t, true, false, false) ==
      Unwords(NumberWords(Hour12(t.hour))) + " " + Unwords(NumberWords(t.minute))
  {
    var h := NumberWords(Hour12(t.hour));
    var m := NumberWords(t.minute);
    assert Speech12(t, false) == h + m;
    JoinWithConcat(" ", h, m);
  }

  /** The spoken 24-hour time is the hour as two digits, then "hundred" on
      the hour or the minute as two digits ("zero two hundred", "thirteen
      twenty two", "zero zero zero one"). */
  lemma Spoken24Hour(t: ClockTime, useAmPm: bool)
    requires ValidTime(t)
    ensures NiceTime(t, true, true, useAmPm) ==
      Unwords(TwoDigitWords(t.hour)) + " " +
      (if t.minute == 0 then "hundred" else Unwords(TwoDigitWords(t.minute)))
  {
    if t.minute == 0 {
      JoinWithAppend(" ", TwoDigitWords(t.hour), "hundred");
    } else {
      JoinWithConcat(" ", TwoDigitWords(t.hour), TwoDigitWords(t.minute));
    }
  }
}
