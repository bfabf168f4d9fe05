/** The `nice_duration` and `nice_relative_time` fixtures of the English
    tests. */
module DurationsExamples {
  import opened Text
  import opened EnglishWords
  import opened Numerals
  import opened Durations

  lemma Count1()
    ensures CountWords(1) == "one"
  {
    BelowHundred(1, true);
    assert Texts(SubHundred(1)) == ["one"];
  }

  lemma Count3()
    ensures CountWords(3) == "three"
  {
    BelowHundred(3, true);
    assert Texts(SubHundred(3)) == ["three"];
  }

  lemma Count5()
    ensures CountWords(5) == "five"
  {
    BelowHundred(5, true);
    assert Texts(SubHundred(5)) == ["five"];
  }

  lemma Count13()
    ensures CountWords(13) == "thirteen"
  {
    BelowHundred(13, true);
    assert Texts(SubHundred(13)) == ["thirteen"];
  }

  lemma Count18()
    ensures CountWords(18) == "eighteen"
  {
    BelowHundred(18, true);
    assert Texts(SubHundred(18)) == ["eighteen"];
  }

  lemma Count20()
    ensures CountWords(20) == "twenty"
  {
    BelowHundred(20, true);
    assert Texts(SubHundred(20)) == ["twenty"];
  }

  lemma Count23()
    ensures CountWords(23) == "twenty three"
  {
    BelowHundred(23, true);
    assert Texts(SubHundred(23)) == ["twenty", "three"];
  }

  lemma Count53()
    ensures CountWords(53) == "fifty three"
  {
    BelowHundred(53, true);
    assert Texts(SubHundred(53)) == ["fifty", "three"];
  }

  lemma Phrase1Second()
    ensures UnitPhrase(1, "second") == "one second"
  {
    Count1();
  }

  lemma Text1()
    ensures Unwords(["one second"]) == "one second"
  {
  }

  lemma Phrases1()
    ensures SubDayPhrases(Span(0, 0, 0, 1)) == ["one second"]
  {
    Phrase1Second();
  }

  lemma Span1()
    ensures Decompose(1) == Span(0, 0, 0, 1)
  {
  }

  /** test/test_format.py:611 */
  lemma Spoken1()
    ensures NiceDuration(Secs(1), true) == "one second"
  {
    Span1();
    SpokenNamesNonZeroUnits(1);
    Phrases1();
    Text1();
  }

  lemma Phrase3Second()
    ensures UnitPhrase(3, "second") == "three seconds"
  {
    Count3();
  }

  lemma Text3()
    ensures Unwords(["three seconds"]) == "three seconds"
  {
  }

  lemma Phrases3()
    ensures SubDayPhrases(Span(0, 0, 0, 3)) == ["three seconds"]
  {
    Phrase3Second();
  }

  lemma Span3()
    ensures Decompose(3) == Span(0, 0, 0, 3)
  {
  }

  /** test/test_format.py:612 */
  lemma Spoken3()
    ensures NiceDuration(Secs(3), true) == "three seconds"
  {
    Span3();
    SpokenNamesNonZeroUnits(3);
    Phrases3();
    Text3();
  }

  lemma Phrase1Minute()
    ensures UnitPhrase(1, "minute") == "one minute"
  {
    Count1();
  }

  lemma Text61()
    ensures Unwords(["one minute", "one second"]) == "one minute one second"
  {
    JoinWithAppend(" ", ["one minute"], "one second");
    assert ["one minute"] + ["one second"] == ["one minute", "one second"];
    assert "one minute" + " " + "one second" == "one minute one second";
  }

  lemma Phrases61()
    ensures SubDayPhrases(Span(0, 0, 1, 1)) == ["one minute", "one second"]
  {
    Phrase1Minute();
    Phrase1Second();
  }

  lemma Span61()
    ensures Decompose(61) == Span(0, 0, 1, 1)
  {
  }

  /** test/test_format.py:614 */
  lemma Spoken61()
    ensures NiceDuration(Secs(61), true) == "one minute one second"
  {
    Span61();
    SpokenNamesNonZeroUnits(61);
    Phrases61();
    Text61();
  }

  lemma Phrase1Hour()
    ensures UnitPhrase(1, "hour") == "one hour"
  {
    Count1();
  }

  lemma Phrase23Minute()
    ensures UnitPhrase(23, "minute") == "twenty three minutes"
  {
    Count23();
  }

  lemma Phrase20Second()
    ensures UnitPhrase(20, "second") == "twenty seconds"
  {
    Count20();
  }

  lemma Text5000UpTo2()
    ensures Unwords(["one hour", "twenty three minutes"]) == "one hour twenty three minutes"
  {
    JoinWithAppend(" ", ["one hour"], "twenty three minutes");
    assert ["one hour"] + ["twenty three minutes"] == ["one hour", "twenty three minutes"];
    assert "one hour" + " " + "twenty three minutes" == "one hour twenty three minutes";
  }

  lemma Text5000()
    ensures Unwords(["one hour", "twenty three minutes", "twenty seconds"]) == "one hour twenty three minutes twenty seconds"
  {
    Text5000UpTo2();
    JoinWithAppend(" ", ["one hour", "twenty three minutes"], "twenty seconds");
    assert ["one hour", "twenty three minutes"] + ["twenty seconds"] == ["one hour", "twenty three minutes", "twenty seconds"];
    assert "one hour twenty three minutes" + " " + "twenty seconds" == "one hour twenty three minutes twenty seconds";
  }

  lemma Phrases5000()
    ensures SubDayPhrases(Span(0, 1, 23, 20)) == ["one hour", "twenty three minutes", "twenty seconds"]
  {
    Phrase1Hour();
    Phrase23Minute();
    Phrase20Second();
  }

  lemma Span5000()
    ensures Decompose(5000) == Span(0, 1, 23, 20)
  {
  }

  /** test/test_format.py:616 */
  lemma Spoken5000()
    ensures NiceDuration(Secs(5000), true) == "one hour twenty three minutes twenty seconds"
  {
    Span5000();
    SpokenNamesNonZeroUnits(5000);
    Phrases5000();
    Text5000();
  }

  lemma Phrase13Hour()
    ensures UnitPhrase(13, "hour") == "thirteen hours"
  {
    Count13();
  }

  lemma Phrase53Minute()
    ensures UnitPhrase(53, "minute") == "fifty three minutes"
  {
    Count53();
  }

  lemma Text50000UpTo2()
    ensures Unwords(["thirteen hours", "fifty three minutes"]) == "thirteen hours fifty three minutes"
  {
    JoinWithAppend(" ", ["thirteen hours"], "fifty three minutes");
    assert ["thirteen hours"] + ["fifty three minutes"] == ["thirteen hours", "fifty three minutes"];
    assert "thirteen hours" + " " + "fifty three minutes" == "thirteen hours fifty three minutes";
  }

  lemma Text50000()
    ensures Unwords(["thirteen hours", "fifty three minutes", "twenty seconds"]) == "thirteen hours fifty three minutes twenty seconds"
  {
    Text50000UpTo2();
    JoinWithAppend(" ", ["thirteen hours", "fifty three minutes"], "twenty seconds");
    assert ["thirteen hours", "fifty three minutes"] + ["twenty seconds"] == ["thirteen hours", "fifty three minutes", "twenty seconds"];
    assert "thirteen hours fifty three minutes" + " " + "twenty seconds" == "thirteen hours fifty three minutes twenty seconds";
  }

  lemma Phrases50000()
    ensures SubDayPhrases(Span(0, 13, 53, 20)) == ["thirteen hours", "fifty three minutes", "twenty seconds"]
  {
    Phrase13Hour();
    Phrase53Minute();
    Phrase20Second();
  }

  lemma Span50000()
    ensures Decompose(50000) == Span(0, 13, 53, 20)
  {
  }

  /** test/test_format.py:619 */
  lemma Spoken50000()
    ensures NiceDuration(Secs(50000), true) == "thirteen hours fifty three minutes twenty seconds"
  {
    Span50000();
    SpokenNamesNonZeroUnits(50000);
    Phrases50000();
    Text50000();
  }

  lemma Phrase18Hour()
    ensures UnitPhrase(18, "hour") == "eighteen hours"
  {
    Count18();
  }

  lemma Phrase5Day()
    ensures UnitPhrase(5, "day") == "five days"
  {
    Count5();
  }

  lemma Text500000UpTo2()
    ensures Unwords(["five days", ""]) == "five days "
  {
    JoinWithAppend(" ", ["five days"], "");
    assert ["five days"] + [""] == ["five days", ""];
    assert "five days" + " " + "" == "five days ";
  }

  lemma Text500000UpTo3()
    ensures Unwords(["five days", "", "eighteen hours"]) == "five days  eighteen hours"
  {
    Text500000UpTo2();
    JoinWithAppend(" ", ["five days", ""], "eighteen hours");
    assert ["five days", ""] + ["eighteen hours"] == ["five days", "", "eighteen hours"];
    assert "five days " + " " + "eighteen hours" == "five days  eighteen hours";
  }

  lemma Text500000UpTo4()
    ensures Unwords(["five days", "", "eighteen hours", "fifty three minutes"]) == "five days  eighteen hours fifty three minutes"
  {
    Text500000UpTo3();
    JoinWithAppend(" ", ["five days", "", "eighteen hours"], "fifty three minutes");
    assert ["five days", "", "eighteen hours"] + ["fifty three minutes"] == ["five days", "", "eighteen hours", "fifty three minutes"];
    assert "five days  eighteen hours" + " " + "fifty three minutes" == "five days  eighteen hours fifty three minutes";
  }

  lemma Text500000()
    ensures Unwords(["five days", "", "eighteen hours", "fifty three minutes", "twenty seconds"]) == "five days  eighteen hours fifty three minutes twenty seconds"
  {
    Text500000UpTo4();
    JoinWithAppend(" ", ["five days", "", "eighteen hours", "fifty three minutes"], "twenty seconds");
    assert ["five days", "", "eighteen hours", "fifty three minutes"] + ["twenty seconds"] == ["five days", "", "eighteen hours", "fifty three minutes", "twenty seconds"];
    assert "five days  eighteen hours fifty three minutes" + " " + "twenty seconds" == "five days  eighteen hours fifty three minutes twenty seconds";
  }

  lemma AfterDays500000()
    ensures AfterDays("five days ", ["eighteen hours", "fifty three minutes", "twenty seconds"]) == "five days  eighteen hours fifty three minutes twenty seconds"
  {
    AfterDaysAsWords("five days", ["eighteen hours", "fifty three minutes", "twenty seconds"]);
    assert ["five days", ""] + ["eighteen hours", "fifty three minutes", "twenty seconds"] == ["five days", "", "eighteen hours", "fifty three minutes", "twenty seconds"];
    Text500000();
  }

  lemma Phrases500000()
    ensures SubDayPhrases(Span(5, 18, 53, 20)) == ["eighteen hours", "fifty three minutes", "twenty seconds"]
  {
    Phrase18Hour();
    Phrase53Minute();
    Phrase20Second();
  }

  lemma Span500000()
    ensures Decompose(500000) == Span(5, 18, 53, 20)
  {
  }

  /** test/test_format.py:622 */
  lemma Spoken500000()
    ensures NiceDuration(Secs(500000), true) == "five days  eighteen hours fifty three minutes twenty seconds"
  {
    Span500000();
    SpokenNamesNonZeroUnits(500000);
    Phrases500000();
    Phrase5Day();
    AfterDays500000();
  }

  /** test/test_format.py:613 */
  lemma Digital1()
    ensures NiceDuration(Secs(1), false) == "0:01"
  {
    Span1();
  }

  /** test/test_format.py:615 */
  lemma Digital61()
    ensures NiceDuration(Secs(61), false) == "1:01"
  {
    Span61();
  }

  /** test/test_format.py:618 */
  lemma Digital5000()
    ensures NiceDuration(Secs(5000), false) == "1:23:20"
  {
    Span5000();
  }

  /** test/test_format.py:621 */
  lemma Digital50000()
    ensures NiceDuration(Secs(50000), false) == "13:53:20"
  {
    Span50000();
  }

  /** test/test_format.py:624 */
  lemma Digital500000()
    ensures NiceDuration(Secs(500000), false) == "5d 18:53:20"
  {
    Span500000();
  }

  /** test/test_format.py:625-627: a timedelta of 500000 seconds renders as
      the count does. */
  lemma DigitalTimeDelta()
    ensures NiceDuration(Delta(FromSeconds(500000)), false) == "5d 18:53:20"
  {
    TimeDeltaAsSeconds(500000, false);
    Digital500000();
  }

  /** test/test_format.py:650-653: any instant and one 7200 seconds later. */
  lemma RelativeTwoHours(base: int)
    ensures NiceRelativeTime(base + 7200, base) == "2 hours"
  {
    assert Abs(base + 7200 - base) == 7200;
  }

  /** test/test_format.py:655-658: any instant and one 8820 seconds later. */
  lemma RelativeTwoHoursTwentySeven(base: int)
    ensures NiceRelativeTime(base + 8820, base) == "2 hours"
  {
    assert Abs(base + 8820 - base) == 8820;
  }

  /** test/test_format.py:660-663: any instant and one 47 seconds later. */
  lemma RelativeFortySevenSeconds(base: int)
    ensures NiceRelativeTime(base + 47, base) == "47 seconds"
  {
    assert Abs(base + 47 - base) == 47;
  }

  /** test/test_format.py:665-668: any instant and one 259200 seconds later. */
  lemma RelativeThreeDays(base: int)
    ensures NiceRelativeTime(base + 259200, base) == "3 days"
  {
    assert Abs(base + 259200 - base) == 259200;
  }

  /** test/test_format.py:670-673: any instant and one 331200 seconds later. */
  lemma RelativeThreeDaysTwentyHours(base: int)
    ensures NiceRelativeTime(base + 331200, base) == "4 days"
  {
    assert Abs(base + 331200 - base) == 331200;
  }

  /** test/test_format.py:675-678: any instant and one 82692012 seconds later. */
  lemma RelativeNineHundredFiftySevenDays(base: int)
    ensures NiceRelativeTime(base + 82692012, base) == "957 days"
  {
    assert Abs(base + 82692012 - base) == 82692012;
  }

}
