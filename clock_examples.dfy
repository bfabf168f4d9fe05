/** The clock fixtures: each lemma states one rendering of `nice_time` that
    the English tests pin down. */
module ClockExamples {
  import opened Text
  import opened EnglishWords
  import opened Numerals
  import opened Clock

  lemma Words1()
    ensures NumberWords(1) == ["one"]
  {
    assert SubHundred(1) == [Small(1)];
    assert Texts([Small(1)]) == ["one"];
  }

  lemma Words22()
    ensures NumberWords(22) == ["twenty", "two"]
  {
    assert SubHundred(22) == [Tens(2), Small(2)];
    assert Texts([Tens(2), Small(2)]) == ["twenty", "two"];
  }

  lemma UnwordsOfTime1322Speech12()
    ensures Unwords(["one", "twenty", "two"]) == "one twenty two"
  {
  }

  lemma UnwordsOfTime1322Speech12AmPm()
    ensures Unwords(["one", "twenty", "two", "p.m."]) == "one twenty two p.m."
  {
  }

  lemma Words13()
    ensures NumberWords(13) == ["thirteen"]
  {
    assert SubHundred(13) == [Small(13)];
    assert Texts([Small(13)]) == ["thirteen"];
  }

  lemma UnwordsOfTime1322Speech24AmPm()
    ensures Unwords(["thirteen", "twenty", "two"]) == "thirteen twenty two"
  {
  }

  lemma UnwordsOfTime1300Speech12()
    ensures Unwords(["one", "o'clock"]) == "one o'clock"
  {
  }

  lemma UnwordsOfTime1300Speech12AmPm()
    ensures Unwords(["one", "p.m."]) == "one p.m."
  {
  }

  lemma UnwordsOfTime1300Speech24AmPm()
    ensures Unwords(["thirteen", "hundred"]) == "thirteen hundred"
  {
  }

  lemma Words2()
    ensures NumberWords(2) == ["two"]
  {
    assert SubHundred(2) == [Small(2)];
    assert Texts([Small(2)]) == ["two"];
  }

  lemma UnwordsOfTime1302Speech12()
    ensures Unwords(["one", "oh", "two"]) == "one oh two"
  {
  }

  lemma UnwordsOfTime1302Speech12AmPm()
    ensures Unwords(["one", "oh", "two", "p.m."]) == "one oh two p.m."
  {
  }

  lemma UnwordsOfTime1302Speech24AmPm()
    ensures Unwords(["thirteen", "zero", "two"]) == "thirteen zero two"
  {
  }

  lemma Words12()
    ensures NumberWords(12) == ["twelve"]
  {
    assert SubHundred(12) == [Small(12)];
    assert Texts([Small(12)]) == ["twelve"];
  }

  lemma UnwordsOfTime0002Speech12()
    ensures Unwords(["twelve", "oh", "two"]) == "twelve oh two"
  {
  }

  lemma UnwordsOfTime0002Speech12AmPm()
    ensures Unwords(["twelve", "oh", "two", "a.m."]) == "twelve oh two a.m."
  {
  }

  lemma UnwordsOfTime0002Speech24AmPm()
    ensures Unwords(["zero", "zero", "zero", "two"]) == "zero zero zero two"
  {
  }

  lemma UnwordsOfTime0102Speech12AmPm()
    ensures Unwords(["one", "oh", "two", "a.m."]) == "one oh two a.m."
  {
  }

  lemma UnwordsOfTime0102Speech24AmPm()
    ensures Unwords(["zero", "one", "zero", "two"]) == "zero one zero two"
  {
  }

  lemma UnwordsOfTime1215Speech12()
    ensures Unwords(["quarter", "past", "twelve"]) == "quarter past twelve"
  {
  }

  lemma UnwordsOfTime1215Speech12AmPm()
    ensures Unwords(["quarter", "past", "twelve", "p.m."]) == "quarter past twelve p.m."
  {
  }

  lemma Words5()
    ensures NumberWords(5) == ["five"]
  {
    assert SubHundred(5) == [Small(5)];
    assert Texts([Small(5)]) == ["five"];
  }

  lemma UnwordsOfTime0530Speech12AmPm()
    ensures Unwords(["half", "past", "five", "a.m."]) == "half past five a.m."
  {
  }

  lemma UnwordsOfTime0145Speech12()
    ensures Unwords(["quarter", "to", "two"]) == "quarter to two"
  {
  }

  /** test/test_format.py:414 */
  lemma Time1322Speech12()
    ensures NiceTime(ClockTime(13, 22), true, false, false) == "one twenty two"
  {
    Words1();
    Words22();
    assert Speech12(ClockTime(13, 22), false) == ["one", "twenty", "two"];
    UnwordsOfTime1322Speech12();
  }

  /** test/test_format.py:417 */
  lemma Time1322Speech12AmPm()
    ensures NiceTime(ClockTime(13, 22), true, false, true) == "one twenty two p.m."
  {
    Words1();
    Words22();
    assert Speech12(ClockTime(13, 22), true) == ["one", "twenty", "two", "p.m."];
    UnwordsOfTime1322Speech12AmPm();
  }

  /** test/test_format.py:419 */
  lemma Time1322Digits12()
    ensures NiceTime(ClockTime(13, 22), false, false, false) == "1:22"
  {
  }

  /** test/test_format.py:421 */
  lemma Time1322Digits12AmPm()
    ensures NiceTime(ClockTime(13, 22), false, false, true) == "1:22 PM"
  {
  }

  /** test/test_format.py:423 */
  lemma Time1322Digits24()
    ensures NiceTime(ClockTime(13, 22), false, true, false) == "13:22"
  {
  }

  /** test/test_format.py:425 */
  lemma Time1322Digits24AmPm()
    ensures NiceTime(ClockTime(13, 22), false, true, true) == "13:22"
  {
  }

  /** test/test_format.py:428 */
  lemma Time1322Speech24AmPm()
    ensures NiceTime(ClockTime(13, 22), true, true, true) == "thirteen twenty two"
  {
    Words13();
    Words22();
    assert Speech24(ClockTime(13, 22)) == ["thirteen", "twenty", "two"];
    UnwordsOfTime1322Speech24AmPm();
  }

  /** test/test_format.py:430 */
  lemma Time1322Speech24()
    ensures NiceTime(ClockTime(13, 22), true, true, false) == "thirteen twenty two"
  {
    Words13();
    Words22();
    assert Speech24(ClockTime(13, 22)) == ["thirteen", "twenty", "two"];
    UnwordsOfTime1322Speech24AmPm();
  }

  /** test/test_format.py:435 */
  lemma Time1300Speech12()
    ensures NiceTime(ClockTime(13, 0), true, false, false) == "one o'clock"
  {
    Words1();
    assert Speech12(ClockTime(13, 0), false) == ["one", "o'clock"];
    UnwordsOfTime1300Speech12();
  }

  /** test/test_format.py:437 */
  lemma Time1300Speech12AmPm()
    ensures NiceTime(ClockTime(13, 0), true, false, true) == "one p.m."
  {
    Words1();
    assert Speech12(ClockTime(13, 0), true) == ["one", "p.m."];
    UnwordsOfTime1300Speech12AmPm();
  }

  /** test/test_format.py:439 */
  lemma Time1300Digits12()
    ensures NiceTime(ClockTime(13, 0), false, false, false) == "1:00"
  {
  }

  /** test/test_format.py:441 */
  lemma Time1300Digits12AmPm()
    ensures NiceTime(ClockTime(13, 0), false, false, true) == "1:00 PM"
  {
  }

  /** test/test_format.py:443 */
  lemma Time1300Digits24()
    ensures NiceTime(ClockTime(13, 0), false, true, false) == "13:00"
  {
  }

  /** test/test_format.py:445 */
  lemma Time1300Digits24AmPm()
    ensures NiceTime(ClockTime(13, 0), false, true, true) == "13:00"
  {
  }

  /** test/test_format.py:448 */
  lemma Time1300Speech24AmPm()
    ensures NiceTime(ClockTime(13, 0), true, true, true) == "thirteen hundred"
  {
    Words13();
    assert Speech24(ClockTime(13, 0)) == ["thirteen", "hundred"];
    UnwordsOfTime1300Speech24AmPm();
  }

  /** test/test_format.py:450 */
  lemma Time1300Speech24()
    ensures NiceTime(ClockTime(13, 0), true, true, false) == "thirteen hundred"
  {
    Words13();
    assert Speech24(ClockTime(13, 0)) == ["thirteen", "hundred"];
    UnwordsOfTime1300Speech24AmPm();
  }

  /** test/test_format.py:455 */
  lemma Time1302Speech12()
    ensures NiceTime(ClockTime(13, 2), true, false, false) == "one oh two"
  {
    Words1();
    Words2();
    assert Speech12(ClockTime(13, 2), false) == ["one", "oh", "two"];
    UnwordsOfTime1302Speech12();
  }

  /** test/test_format.py:457 */
  lemma Time1302Speech12AmPm()
    ensures NiceTime(ClockTime(13, 2), true, false, true) == "one oh two p.m."
  {
    Words1();
    Words2();
    assert Speech12(ClockTime(13, 2), true) == ["one", "oh", "two", "p.m."];
    UnwordsOfTime1302Speech12AmPm();
  }

  /** test/test_format.py:459 */
  lemma Time1302Digits12()
    ensures NiceTime(ClockTime(13, 2), false, false, false) == "1:02"
  {
  }

  /** test/test_format.py:461 */
  lemma Time1302Digits12AmPm()
    ensures NiceTime(ClockTime(13, 2), false, false, true) == "1:02 PM"
  {
  }

  /** test/test_format.py:463 */
  lemma Time1302Digits24()
    ensures NiceTime(ClockTime(13, 2), false, true, false) == "13:02"
  {
  }

  /** test/test_format.py:465 */
  lemma Time1302Digits24AmPm()
    ensures NiceTime(ClockTime(13, 2), false, true, true) == "13:02"
  {
  }

  /** test/test_format.py:468 */
  lemma Time1302Speech24AmPm()
    ensures NiceTime(ClockTime(13, 2), true, true, true) == "thirteen zero two"
  {
    Words13();
    assert Speech24(ClockTime(13, 2)) == ["thirteen", "zero", "two"];
    UnwordsOfTime1302Speech24AmPm();
  }

  /** test/test_format.py:470 */
  lemma Time1302Speech24()
    ensures NiceTime(ClockTime(13, 2), true, true, false) == "thirteen zero two"
  {
    Words13();
    assert Speech24(ClockTime(13, 2)) == ["thirteen", "zero", "two"];
    UnwordsOfTime1302Speech24AmPm();
  }

  /** test/test_format.py:475 */
  lemma Time0002Speech12()
    ensures NiceTime(ClockTime(0, 2), true, false, false) == "twelve oh two"
  {
    Words12();
    Words2();
    assert Speech12(ClockTime(0, 2), false) == ["twelve", "oh", "two"];
    UnwordsOfTime0002Speech12();
  }

  /** test/test_format.py:477 */
  lemma Time0002Speech12AmPm()
    ensures NiceTime(ClockTime(0, 2), true, false, true) == "twelve oh two a.m."
  {
    Words12();
    Words2();
    assert Speech12(ClockTime(0, 2), true) == ["twelve", "oh", "two", "a.m."];
    UnwordsOfTime0002Speech12AmPm();
  }

  /** test/test_format.py:479 */
  lemma Time0002Digits12()
    ensures NiceTime(ClockTime(0, 2), false, false, false) == "12:02"
  {
  }

  /** test/test_format.py:481 */
  lemma Time0002Digits12AmPm()
    ensures NiceTime(ClockTime(0, 2), false, false, true) == "12:02 AM"
  {
  }

  /** test/test_format.py:483 */
  lemma Time0002Digits24()
    ensures NiceTime(ClockTime(0, 2), false, true, false) == "00:02"
  {
  }

  /** test/test_format.py:485 */
  lemma Time0002Digits24AmPm()
    ensures NiceTime(ClockTime(0, 2), false, true, true) == "00:02"
  {
  }

  /** test/test_format.py:488 */
  lemma Time0002Speech24AmPm()
    ensures NiceTime(ClockTime(0, 2), true, true, true) == "zero zero zero two"
  {
    assert Speech24(ClockTime(0, 2)) == ["zero", "zero", "zero", "two"];
    UnwordsOfTime0002Speech24AmPm();
  }

  /** test/test_format.py:490 */
  lemma Time0002Speech24()
    ensures NiceTime(ClockTime(0, 2), true, true, false) == "zero zero zero two"
  {
    assert Speech24(ClockTime(0, 2)) == ["zero", "zero", "zero", "two"];
    UnwordsOfTime0002Speech24AmPm();
  }

  /** test/test_format.py:495 */
  lemma Time0102Speech12()
    ensures NiceTime(ClockTime(1, 2), true, false, false) == "one oh two"
  {
    Words1();
    Words2();
    assert Speech12(ClockTime(1, 2), false) == ["one", "oh", "two"];
    UnwordsOfTime1302Speech12();
  }

  /** test/test_format.py:497 */
  lemma Time0102Speech12AmPm()
    ensures NiceTime(ClockTime(1, 2), true, false, true) == "one oh two a.m."
  {
    Words1();
    Words2();
    assert Speech12(ClockTime(1, 2), true) == ["one", "oh", "two", "a.m."];
    UnwordsOfTime0102Speech12AmPm();
  }

  /** test/test_format.py:499 */
  lemma Time0102Digits12()
    ensures NiceTime(ClockTime(1, 2), false, false, false) == "1:02"
  {
  }

  /** test/test_format.py:501 */
  lemma Time0102Digits12AmPm()
    ensures NiceTime(ClockTime(1, 2), false, false, true) == "1:02 AM"
  {
  }

  /** test/test_format.py:503 */
  lemma Time0102Digits24()
    ensures NiceTime(ClockTime(1, 2), false, true, false) == "01:02"
  {
  }

  /** test/test_format.py:505 */
  lemma Time0102Digits24AmPm()
    ensures NiceTime(ClockTime(1, 2), false, true, true) == "01:02"
  {
  }

  /** test/test_format.py:508 */
  lemma Time0102Speech24AmPm()
    ensures NiceTime(ClockTime(1, 2), true, true, true) == "zero one zero two"
  {
    assert Speech24(ClockTime(1, 2)) == ["zero", "one", "zero", "two"];
    UnwordsOfTime0102Speech24AmPm();
  }

  /** test/test_format.py:510 */
  lemma Time0102Speech24()
    ensures NiceTime(ClockTime(1, 2), true, true, false) == "zero one zero two"
  {
    assert Speech24(ClockTime(1, 2)) == ["zero", "one", "zero", "two"];
    UnwordsOfTime0102Speech24AmPm();
  }

  /** test/test_format.py:515 */
  lemma Time1215Speech12()
    ensures NiceTime(ClockTime(12, 15), true, false, false) == "quarter past twelve"
  {
    Words12();
    assert Speech12(ClockTime(12, 15), false) == ["quarter", "past", "twelve"];
    UnwordsOfTime1215Speech12();
  }

  /** test/test_format.py:517 */
  lemma Time1215Speech12AmPm()
    ensures NiceTime(ClockTime(12, 15), true, false, true) == "quarter past twelve p.m."
  {
    Words12();
    assert Speech12(ClockTime(12, 15), true) == ["quarter", "past", "twelve", "p.m."];
    UnwordsOfTime1215Speech12AmPm();
  }

  /** test/test_format.py:522 */
  lemma Time0530Speech12AmPm()
    ensures NiceTime(ClockTime(5, 30), true, false, true) == "half past five a.m."
  {
    Words5();
    assert Speech12(ClockTime(5, 30), true) == ["half", "past", "five", "a.m."];
    UnwordsOfTime0530Speech12AmPm();
  }

  /** test/test_format.py:527 */
  lemma Time0145Speech12()
    ensures NiceTime(ClockTime(1, 45), true, false, false) == "quarter to two"
  {
    Words2();
    assert Speech12(ClockTime(1, 45), false) == ["quarter", "to", "two"];
    UnwordsOfTime0145Speech12();
  }
}
