/** The number-extraction assertions of the English parser tests, each
    read through the model: the text's words, each word's reading, and the
    scan over those readings. */
module ExtractExamples {
  import opened Options
  import opened Text
  import opened EnglishWords
  import opened Extract

  lemma NotSmallThis()
    ensures SmallToken("this") == None
  {
    assert "this" !in SmallNames;
  }

  lemma NotTensThis()
    ensures TensToken("this") == None
  {
    assert "this" !in TensNames;
  }

  lemma NotScaleThis()
    ensures ScaleWordIndex("this") == None
  {
  }

  lemma NotDigitsThis()
    ensures DigitsPart("this") == None
  {
    assert !IsDigit("this"[0]);
  }

  lemma ReadThis(shortScale: bool)
    ensures Classify("this", shortScale) == OtherWord
  {
    NotSmallThis();
    NotTensThis();
    NotScaleThis();
    NotDigitsThis();
    OrdinaryWord("this", shortScale);
  }

  lemma NotSmallIs()
    ensures SmallToken("is") == None
  {
    assert "is" !in SmallNames;
  }

  lemma NotTensIs()
    ensures TensToken("is") == None
  {
    assert "is" !in TensNames;
  }

  lemma NotScaleIs()
    ensures ScaleWordIndex("is") == None
  {
  }

  lemma NotDigitsIs()
    ensures DigitsPart("is") == None
  {
    assert !IsDigit("is"[0]);
  }

  lemma ReadIs(shortScale: bool)
    ensures Classify("is", shortScale) == OtherWord
  {
    NotSmallIs();
    NotTensIs();
    NotScaleIs();
    NotDigitsIs();
    OrdinaryWord("is", shortScale);
  }

  lemma NotSmallThe()
    ensures SmallToken("the") == None
  {
    assert "the" !in SmallNames;
  }

  lemma NotTensThe()
    ensures TensToken("the") == None
  {
    assert "the" !in TensNames;
  }

  lemma NotScaleThe()
    ensures ScaleWordIndex("the") == None
  {
  }

  lemma NotDigitsThe()
    ensures DigitsPart("the") == None
  {
    assert !IsDigit("the"[0]);
  }

  lemma ReadThe(shortScale: bool)
    ensures Classify("the", shortScale) == OtherWord
  {
    NotSmallThe();
    NotTensThe();
    NotScaleThe();
    NotDigitsThe();
    OrdinaryWord("the", shortScale);
  }

  lemma NotSmall1st()
    ensures SmallToken("1st") == None
  {
    assert "1st" !in SmallNames;
  }

  lemma NotTens1st()
    ensures TensToken("1st") == None
  {
    assert "1st" !in TensNames;
  }

  lemma NotScale1st()
    ensures ScaleWordIndex("1st") == None
  {
  }

  lemma DigitsOf1st()
    ensures DigitsPart("1st") == Some("1")
  {
    assert !IsDigit("1st"[1]);
    assert "1st"[..1] == "1";
    assert "1st"[1..] == "st";
    assert IsDigits("1");
  }

  lemma ValueOf1st()
    ensures ParseNat("1") == 1
  {
  }

  lemma Read1st(shortScale: bool)
    ensures Classify("1st", shortScale) == Digits(1)
  {
    NotSmall1st();
    NotTens1st();
    NotScale1st();
    DigitsOf1st();
    ValueOf1st();
  }

  lemma NotSmall2nd()
    ensures SmallToken("2nd") == None
  {
    assert "2nd" !in SmallNames;
  }

  lemma NotTens2nd()
    ensures TensToken("2nd") == None
  {
    assert "2nd" !in TensNames;
  }

  lemma NotScale2nd()
    ensures ScaleWordIndex("2nd") == None
  {
  }

  lemma DigitsOf2nd()
    ensures DigitsPart("2nd") == Some("2")
  {
    assert !IsDigit("2nd"[1]);
    assert "2nd"[..1] == "2";
    assert "2nd"[1..] == "nd";
    assert IsDigits("2");
  }

  lemma ValueOf2nd()
    ensures ParseNat("2") == 2
  {
  }

  lemma Read2nd(shortScale: bool)
    ensures Classify("2nd", shortScale) == Digits(2)
  {
    NotSmall2nd();
    NotTens2nd();
    NotScale2nd();
    DigitsOf2nd();
    ValueOf2nd();
  }

  lemma NotSmall3rd()
    ensures SmallToken("3rd") == None
  {
    assert "3rd" !in SmallNames;
  }

  lemma NotTens3rd()
    ensures TensToken("3rd") == None
  {
    assert "3rd" !in TensNames;
  }

  lemma NotScale3rd()
    ensures ScaleWordIndex("3rd") == None
  {
  }

  lemma DigitsOf3rd()
    ensures DigitsPart("3rd") == Some("3")
  {
    assert !IsDigit("3rd"[1]);
    assert "3rd"[..1] == "3";
    assert "3rd"[1..] == "rd";
    assert IsDigits("3");
  }

  lemma ValueOf3rd()
    ensures ParseNat("3") == 3
  {
  }

  lemma Read3rd(shortScale: bool)
    ensures Classify("3rd", shortScale) == Digits(3)
  {
    NotSmall3rd();
    NotTens3rd();
    NotScale3rd();
    DigitsOf3rd();
    ValueOf3rd();
  }

  lemma NotSmall4th()
    ensures SmallToken("4th") == None
  {
    assert "4th" !in SmallNames;
  }

  lemma NotTens4th()
    ensures TensToken("4th") == None
  {
    assert "4th" !in TensNames;
  }

  lemma NotScale4th()
    ensures ScaleWordIndex("4th") == None
  {
  }

  lemma DigitsOf4th()
    ensures DigitsPart("4th") == Some("4")
  {
    assert !IsDigit("4th"[1]);
    assert "4th"[..1] == "4";
    assert "4th"[1..] == "th";
    assert IsDigits("4");
  }

  lemma ValueOf4th()
    ensures ParseNat("4") == 4
  {
  }

  lemma Read4th(shortScale: bool)
    ensures Classify("4th", shortScale) == Digits(4)
  {
    NotSmall4th();
    NotTens4th();
    NotScale4th();
    DigitsOf4th();
    ValueOf4th();
  }

  lemma NotSmall7th()
    ensures SmallToken("7th") == None
  {
    assert "7th" !in SmallNames;
  }

  lemma NotTens7th()
    ensures TensToken("7th") == None
  {
    assert "7th" !in TensNames;
  }

  lemma NotScale7th()
    ensures ScaleWordIndex("7th") == None
  {
  }

  lemma DigitsOf7th()
    ensures DigitsPart("7th") == Some("7")
  {
    assert !IsDigit("7th"[1]);
    assert "7th"[..1] == "7";
    assert "7th"[1..] == "th";
    assert IsDigits("7");
  }

  lemma ValueOf7th()
    ensures ParseNat("7") == 7
  {
  }

  lemma Read7th(shortScale: bool)
    ensures Classify("7th", shortScale) == Digits(7)
  {
    NotSmall7th();
    NotTens7th();
    NotScale7th();
    DigitsOf7th();
    ValueOf7th();
  }

  lemma NotSmallTest()
    ensures SmallToken("test") == None
  {
    assert "test" !in SmallNames;
  }

  lemma NotTensTest()
    ensures TensToken("test") == None
  {
    assert "test" !in TensNames;
  }

  lemma NotScaleTest()
    ensures ScaleWordIndex("test") == None
  {
  }

  lemma NotDigitsTest()
    ensures DigitsPart("test") == None
  {
    assert !IsDigit("test"[0]);
  }

  lemma ReadTest(shortScale: bool)
    ensures Classify("test", shortScale) == OtherWord
  {
    NotSmallTest();
    NotTensTest();
    NotScaleTest();
    NotDigitsTest();
    OrdinaryWord("test", shortScale);
  }

  lemma NotSmallNth()
    ensures SmallToken("nth") == None
  {
    assert "nth" !in SmallNames;
  }

  lemma NotTensNth()
    ensures TensToken("nth") == None
  {
    assert "nth" !in TensNames;
  }

  lemma NotScaleNth()
    ensures ScaleWordIndex("nth") == None
  {
  }

  lemma NotDigitsNth()
    ensures DigitsPart("nth") == None
  {
    assert !IsDigit("nth"[0]);
  }

  lemma ReadNth(shortScale: bool)
    ensures Classify("nth", shortScale) == OtherWord
  {
    NotSmallNth();
    NotTensNth();
    NotScaleNth();
    NotDigitsNth();
    OrdinaryWord("nth", shortScale);
  }

  lemma NotSmall31st()
    ensures SmallToken("31st") == None
  {
    assert "31st" !in SmallNames;
  }

  lemma NotTens31st()
    ensures TensToken("31st") == None
  {
    assert "31st" !in TensNames;
  }

  lemma NotScale31st()
    ensures ScaleWordIndex("31st") == None
  {
  }

  lemma DigitsOf31st()
    ensures DigitsPart("31st") == Some("31")
  {
    assert !IsDigit("31st"[2]);
    assert "31st"[..2] == "31";
    assert "31st"[2..] == "st";
    assert IsDigits("31");
  }

  lemma ValueOf31st()
    ensures ParseNat("31") == 31
  {
  }

  lemma Read31st(shortScale: bool)
    ensures Classify("31st", shortScale) == Digits(31)
  {
    NotSmall31st();
    NotTens31st();
    NotScale31st();
    DigitsOf31st();
    ValueOf31st();
  }

  lemma NotSmall32nd()
    ensures SmallToken("32nd") == None
  {
    assert "32nd" !in SmallNames;
  }

  lemma NotTens32nd()
    ensures TensToken("32nd") == None
  {
    assert "32nd" !in TensNames;
  }

  lemma NotScale32nd()
    ensures ScaleWordIndex("32nd") == None
  {
  }

  lemma DigitsOf32nd()
    ensures DigitsPart("32nd") == Some("32")
  {
    assert !IsDigit("32nd"[2]);
    assert "32nd"[..2] == "32";
    assert "32nd"[2..] == "nd";
    assert IsDigits("32");
  }

  lemma ValueOf32nd()
    ensures ParseNat("32") == 32
  {
  }

  lemma Read32nd(shortScale: bool)
    ensures Classify("32nd", shortScale) == Digits(32)
  {
    NotSmall32nd();
    NotTens32nd();
    NotScale32nd();
    DigitsOf32nd();
    ValueOf32nd();
  }

  lemma NotSmall33rd()
    ensures SmallToken("33rd") == None
  {
    assert "33rd" !in SmallNames;
  }

  lemma NotTens33rd()
    ensures TensToken("33rd") == None
  {
    assert "33rd" !in TensNames;
  }

  lemma NotScale33rd()
    ensures ScaleWordIndex("33rd") == None
  {
  }

  lemma DigitsOf33rd()
    ensures DigitsPart("33rd") == Some("33")
  {
    assert !IsDigit("33rd"[2]);
    assert "33rd"[..2] == "33";
    assert "33rd"[2..] == "rd";
    assert IsDigits("33");
  }

  lemma ValueOf33rd()
    ensures ParseNat("33") == 33
  {
  }

  lemma Read33rd(shortScale: bool)
    ensures Classify("33rd", shortScale) == Digits(33)
  {
    NotSmall33rd();
    NotTens33rd();
    NotScale33rd();
    DigitsOf33rd();
    ValueOf33rd();
  }

  lemma NotSmall34th()
    ensures SmallToken("34th") == None
  {
    assert "34th" !in SmallNames;
  }

  lemma NotTens34th()
    ensures TensToken("34th") == None
  {
    assert "34th" !in TensNames;
  }

  lemma NotScale34th()
    ensures ScaleWordIndex("34th") == None
  {
  }

  lemma DigitsOf34th()
    ensures DigitsPart("34th") == Some("34")
  {
    assert !IsDigit("34th"[2]);
    assert "34th"[..2] == "34";
    assert "34th"[2..] == "th";
    assert IsDigits("34");
  }

  lemma ValueOf34th()
    ensures ParseNat("34") == 34
  {
  }

  lemma Read34th(shortScale: bool)
    ensures Classify("34th", shortScale) == Digits(34)
  {
    NotSmall34th();
    NotTens34th();
    NotScale34th();
    DigitsOf34th();
    ValueOf34th();
  }

  lemma NotSmallFirst()
    ensures SmallToken("first") == None
  {
    assert "first" !in SmallNames;
  }

  lemma NotTensFirst()
    ensures TensToken("first") == None
  {
    assert "first" !in TensNames;
  }

  lemma NotScaleFirst()
    ensures ScaleWordIndex("first") == None
  {
  }

  lemma NotDigitsFirst()
    ensures DigitsPart("first") == None
  {
    assert !IsDigit("first"[0]);
  }

  lemma ReadFirst(shortScale: bool)
    ensures Classify("first", shortScale) == OtherWord
  {
    NotSmallFirst();
    NotTensFirst();
    NotScaleFirst();
    NotDigitsFirst();
    OrdinaryWord("first", shortScale);
  }

  lemma NotSmallSecond()
    ensures SmallToken("second") == None
  {
    assert "second" !in SmallNames;
  }

  lemma NotTensSecond()
    ensures TensToken("second") == None
  {
    assert "second" !in TensNames;
  }

  lemma NotScaleSecond()
    ensures ScaleWordIndex("second") == None
  {
  }

  lemma NotDigitsSecond()
    ensures DigitsPart("second") == None
  {
    assert !IsDigit("second"[0]);
  }

  lemma ReadSecond(shortScale: bool)
    ensures Classify("second", shortScale) == OtherWord
  {
    NotSmallSecond();
    NotTensSecond();
    NotScaleSecond();
    NotDigitsSecond();
    OrdinaryWord("second", shortScale);
  }

  lemma NotSmallRemind()
    ensures SmallToken("remind") == None
  {
    assert "remind" !in SmallNames;
  }

  lemma NotTensRemind()
    ensures TensToken("remind") == None
  {
    assert "remind" !in TensNames;
  }

  lemma NotScaleRemind()
    ensures ScaleWordIndex("remind") == None
  {
  }

  lemma NotDigitsRemind()
    ensures DigitsPart("remind") == None
  {
    assert !IsDigit("remind"[0]);
  }

  lemma ReadRemind(shortScale: bool)
    ensures Classify("remind", shortScale) == OtherWord
  {
    NotSmallRemind();
    NotTensRemind();
    NotScaleRemind();
    NotDigitsRemind();
    OrdinaryWord("remind", shortScale);
  }

  lemma NotSmallMe()
    ensures SmallToken("me") == None
  {
    assert "me" !in SmallNames;
  }

  lemma NotTensMe()
    ensures TensToken("me") == None
  {
    assert "me" !in TensNames;
  }

  lemma NotScaleMe()
    ensures ScaleWordIndex("me") == None
  {
  }

  lemma NotDigitsMe()
    ensures DigitsPart("me") == None
  {
    assert !IsDigit("me"[0]);
  }

  lemma ReadMe(shortScale: bool)
    ensures Classify("me", shortScale) == OtherWord
  {
    NotSmallMe();
    NotTensMe();
    NotScaleMe();
    NotDigitsMe();
    OrdinaryWord("me", shortScale);
  }

  lemma NotSmallIn()
    ensures SmallToken("in") == None
  {
    assert "in" !in SmallNames;
  }

  lemma NotTensIn()
    ensures TensToken("in") == None
  {
    assert "in" !in TensNames;
  }

  lemma NotScaleIn()
    ensures ScaleWordIndex("in") == None
  {
  }

  lemma NotDigitsIn()
    ensures DigitsPart("in") == None
  {
    assert !IsDigit("in"[0]);
  }

  lemma ReadIn(shortScale: bool)
    ensures Classify("in", shortScale) == OtherWord
  {
    NotSmallIn();
    NotTensIn();
    NotScaleIn();
    NotDigitsIn();
    OrdinaryWord("in", shortScale);
  }

  lemma NotSmallA()
    ensures SmallToken("a") == None
  {
    assert "a" !in SmallNames;
  }

  lemma NotTensA()
    ensures TensToken("a") == None
  {
    assert "a" !in TensNames;
  }

  lemma NotScaleA()
    ensures ScaleWordIndex("a") == None
  {
  }

  lemma NotDigitsA()
    ensures DigitsPart("a") == None
  {
    assert !IsDigit("a"[0]);
  }

  lemma ReadA(shortScale: bool)
    ensures Classify("a", shortScale) == OtherWord
  {
    NotSmallA();
    NotTensA();
    NotScaleA();
    NotDigitsA();
    OrdinaryWord("a", shortScale);
  }

  lemma NotSmallThird()
    ensures SmallToken("third") == None
  {
    assert "third" !in SmallNames;
  }

  lemma NotTensThird()
    ensures TensToken("third") == None
  {
    assert "third" !in TensNames;
  }

  lemma NotScaleThird()
    ensures ScaleWordIndex("third") == None
  {
  }

  lemma NotDigitsThird()
    ensures DigitsPart("third") == None
  {
    assert !IsDigit("third"[0]);
  }

  lemma ReadThird(shortScale: bool)
    ensures Classify("third", shortScale) == OtherWord
  {
    NotSmallThird();
    NotTensThird();
    NotScaleThird();
    NotDigitsThird();
    OrdinaryWord("third", shortScale);
  }

  lemma ReadOne(shortScale: bool)
    ensures Classify("one", shortScale) == UnitWord(1)
  {
    assert SmallNames[1] == "one";
    SmallEntry(1);
  }

  lemma NotSmallOf()
    ensures SmallToken("of") == None
  {
    assert "of" !in SmallNames;
  }

  lemma NotTensOf()
    ensures TensToken("of") == None
  {
    assert "of" !in TensNames;
  }

  lemma NotScaleOf()
    ensures ScaleWordIndex("of") == None
  {
  }

  lemma NotDigitsOf()
    ensures DigitsPart("of") == None
  {
    assert !IsDigit("of"[0]);
  }

  lemma ReadOf(shortScale: bool)
    ensures Classify("of", shortScale) == OtherWord
  {
    NotSmallOf();
    NotTensOf();
    NotScaleOf();
    NotDigitsOf();
    OrdinaryWord("of", shortScale);
  }

  lemma NotSmallCup()
    ensures SmallToken("cup") == None
  {
    assert "cup" !in SmallNames;
  }

  lemma NotTensCup()
    ensures TensToken("cup") == None
  {
    assert "cup" !in TensNames;
  }

  lemma NotScaleCup()
    ensures ScaleWordIndex("cup") == None
  {
  }

  lemma NotDigitsCup()
    ensures DigitsPart("cup") == None
  {
    assert !IsDigit("cup"[0]);
  }

  lemma ReadCup(shortScale: bool)
    ensures Classify("cup", shortScale) == OtherWord
  {
    NotSmallCup();
    NotTensCup();
    NotScaleCup();
    NotDigitsCup();
    OrdinaryWord("cup", shortScale);
  }

  lemma NotSmall2()
    ensures SmallToken("2") == None
  {
    assert "2" !in SmallNames;
  }

  lemma NotTens2()
    ensures TensToken("2") == None
  {
    assert "2" !in TensNames;
  }

  lemma NotScale2()
    ensures ScaleWordIndex("2") == None
  {
  }

  lemma DigitsOf2()
    ensures DigitsPart("2") == Some("2")
  {
    assert IsDigits("2");
  }

  lemma ValueOf2()
    ensures ParseNat("2") == 2
  {
  }

  lemma Read2(shortScale: bool)
    ensures Classify("2", shortScale) == Digits(2)
  {
    NotSmall2();
    NotTens2();
    NotScale2();
    DigitsOf2();
    ValueOf2();
  }

  lemma NotSmallFifths()
    ensures SmallToken("fifths") == None
  {
    assert "fifths" !in SmallNames;
  }

  lemma NotTensFifths()
    ensures TensToken("fifths") == None
  {
    assert "fifths" !in TensNames;
  }

  lemma NotScaleFifths()
    ensures ScaleWordIndex("fifths") == None
  {
  }

  lemma NotDigitsFifths()
    ensures DigitsPart("fifths") == None
  {
    assert !IsDigit("fifths"[0]);
  }

  lemma ReadFifths(shortScale: bool)
    ensures Classify("fifths", shortScale) == OtherWord
  {
    NotSmallFifths();
    NotTensFifths();
    NotScaleFifths();
    NotDigitsFifths();
    OrdinaryWord("fifths", shortScale);
  }

  lemma NotSmallSixth()
    ensures SmallToken("sixth") == None
  {
    assert "sixth" !in SmallNames;
  }

  lemma NotTensSixth()
    ensures TensToken("sixth") == None
  {
    assert "sixth" !in TensNames;
  }

  lemma NotScaleSixth()
    ensures ScaleWordIndex("sixth") == None
  {
  }

  lemma NotDigitsSixth()
    ensures DigitsPart("sixth") == None
  {
    assert !IsDigit("sixth"[0]);
  }

  lemma ReadSixth(shortScale: bool)
    ensures Classify("sixth", shortScale) == OtherWord
  {
    NotSmallSixth();
    NotTensSixth();
    NotScaleSixth();
    NotDigitsSixth();
    OrdinaryWord("sixth", shortScale);
  }

  lemma ReadThirty(shortScale: bool)
    ensures Classify("thirty", shortScale) == TensWord(30)
  {
    assert TensNames[1] == "thirty";
    TensEntry(3);
  }

  lemma NotSmallBillionth()
    ensures SmallToken("billionth") == None
  {
    assert "billionth" !in SmallNames;
  }

  lemma NotTensBillionth()
    ensures TensToken("billionth") == None
  {
    assert "billionth" !in TensNames;
  }

  lemma NotScaleBillionth()
    ensures ScaleWordIndex("billionth") == None
  {
  }

  lemma NotDigitsBillionth()
    ensures DigitsPart("billionth") == None
  {
    assert !IsDigit("billionth"[0]);
  }

  lemma ReadBillionth(shortScale: bool)
    ensures Classify("billionth", shortScale) == OtherWord
  {
    NotSmallBillionth();
    NotTensBillionth();
    NotScaleBillionth();
    NotDigitsBillionth();
    OrdinaryWord("billionth", shortScale);
  }

  lemma NotSmallYou()
    ensures SmallToken("you") == None
  {
    assert "you" !in SmallNames;
  }

  lemma NotTensYou()
    ensures TensToken("you") == None
  {
    assert "you" !in TensNames;
  }

  lemma NotScaleYou()
    ensures ScaleWordIndex("you") == None
  {
  }

  lemma NotDigitsYou()
    ensures DigitsPart("you") == None
  {
    assert !IsDigit("you"[0]);
  }

  lemma ReadYou(shortScale: bool)
    ensures Classify("you", shortScale) == OtherWord
  {
    NotSmallYou();
    NotTensYou();
    NotScaleYou();
    NotDigitsYou();
    OrdinaryWord("you", shortScale);
  }

  lemma NotSmallAre()
    ensures SmallToken("are") == None
  {
    assert "are" !in SmallNames;
  }

  lemma NotTensAre()
    ensures TensToken("are") == None
  {
    assert "are" !in TensNames;
  }

  lemma NotScaleAre()
    ensures ScaleWordIndex("are") == None
  {
  }

  lemma NotDigitsAre()
    ensures DigitsPart("are") == None
  {
    assert !IsDigit("are"[0]);
  }

  lemma ReadAre(shortScale: bool)
    ensures Classify("are", shortScale) == OtherWord
  {
    NotSmallAre();
    NotTensAre();
    NotScaleAre();
    NotDigitsAre();
    OrdinaryWord("are", shortScale);
  }

  lemma NotSmall8th()
    ensures SmallToken("8th") == None
  {
    assert "8th" !in SmallNames;
  }

  lemma NotTens8th()
    ensures TensToken("8th") == None
  {
    assert "8th" !in TensNames;
  }

  lemma NotScale8th()
    ensures ScaleWordIndex("8th") == None
  {
  }

  lemma DigitsOf8th()
    ensures DigitsPart("8th") == Some("8")
  {
    assert !IsDigit("8th"[1]);
    assert "8th"[..1] == "8";
    assert "8th"[1..] == "th";
    assert IsDigits("8");
  }

  lemma ValueOf8th()
    ensures ParseNat("8") == 8
  {
  }

  lemma Read8th(shortScale: bool)
    ensures Classify("8th", shortScale) == Digits(8)
  {
    NotSmall8th();
    NotTens8th();
    NotScale8th();
    DigitsOf8th();
    ValueOf8th();
  }

  lemma NotSmallNumber()
    ensures SmallToken("number") == None
  {
    assert "number" !in SmallNames;
  }

  lemma NotTensNumber()
    ensures TensToken("number") == None
  {
    assert "number" !in TensNames;
  }

  lemma NotScaleNumber()
    ensures ScaleWordIndex("number") == None
  {
  }

  lemma NotDigitsNumber()
    ensures DigitsPart("number") == None
  {
    assert !IsDigit("number"[0]);
  }

  lemma ReadNumber(shortScale: bool)
    ensures Classify("number", shortScale) == OtherWord
  {
    NotSmallNumber();
    NotTensNumber();
    NotScaleNumber();
    NotDigitsNumber();
    OrdinaryWord("number", shortScale);
  }

  lemma NotSmall4()
    ensures SmallToken("4") == None
  {
    assert "4" !in SmallNames;
  }

  lemma NotTens4()
    ensures TensToken("4") == None
  {
    assert "4" !in TensNames;
  }

  lemma NotScale4()
    ensures ScaleWordIndex("4") == None
  {
  }

  lemma DigitsOf4()
    ensures DigitsPart("4") == Some("4")
  {
    assert IsDigits("4");
  }

  lemma ValueOf4()
    ensures ParseNat("4") == 4
  {
  }

  lemma Read4(shortScale: bool)
    ensures Classify("4", shortScale) == Digits(4)
  {
    NotSmall4();
    NotTens4();
    NotScale4();
    DigitsOf4();
    ValueOf4();
  }

  lemma ReadThree(shortScale: bool)
    ensures Classify("three", shortScale) == UnitWord(3)
  {
    assert SmallNames[3] == "three";
    SmallEntry(3);
  }

  lemma NotSmallCups()
    ensures SmallToken("cups") == None
  {
    assert "cups" !in SmallNames;
  }

  lemma NotTensCups()
    ensures TensToken("cups") == None
  {
    assert "cups" !in TensNames;
  }

  lemma NotScaleCups()
    ensures ScaleWordIndex("cups") == None
  {
  }

  lemma NotDigitsCups()
    ensures DigitsPart("cups") == None
  {
    assert !IsDigit("cups"[0]);
  }

  lemma ReadCups(shortScale: bool)
    ensures Classify("cups", shortScale) == OtherWord
  {
    NotSmallCups();
    NotTensCups();
    NotScaleCups();
    NotDigitsCups();
    OrdinaryWord("cups", shortScale);
  }

  lemma ReadTwenty(shortScale: bool)
    ensures Classify("twenty", shortScale) == TensWord(20)
  {
    assert TensNames[0] == "twenty";
    TensEntry(2);
  }

  lemma ReadTwo(shortScale: bool)
    ensures Classify("two", shortScale) == UnitWord(2)
  {
    assert SmallNames[2] == "two";
    SmallEntry(2);
  }

  lemma NotSmallWith()
    ensures SmallToken("with") == None
  {
    assert "with" !in SmallNames;
  }

  lemma NotTensWith()
    ensures TensToken("with") == None
  {
    assert "with" !in TensNames;
  }

  lemma NotScaleWith()
    ensures ScaleWordIndex("with") == None
  {
  }

  lemma NotDigitsWith()
    ensures DigitsPart("with") == None
  {
    assert !IsDigit("with"[0]);
  }

  lemma ReadWith(shortScale: bool)
    ensures Classify("with", shortScale) == OtherWord
  {
    NotSmallWith();
    NotTensWith();
    NotScaleWith();
    NotDigitsWith();
    OrdinaryWord("with", shortScale);
  }

  lemma NotSmallLeading()
    ensures SmallToken("leading") == None
  {
    assert "leading" !in SmallNames;
  }

  lemma NotTensLeading()
    ensures TensToken("leading") == None
  {
    assert "leading" !in TensNames;
  }

  lemma NotScaleLeading()
    ensures ScaleWordIndex("leading") == None
  {
  }

  lemma NotDigitsLeading()
    ensures DigitsPart("leading") == None
  {
    assert !IsDigit("leading"[0]);
  }

  lemma ReadLeading(shortScale: bool)
    ensures Classify("leading", shortScale) == OtherWord
  {
    NotSmallLeading();
    NotTensLeading();
    NotScaleLeading();
    NotDigitsLeading();
    OrdinaryWord("leading", shortScale);
  }

  lemma NotSmallCapital()
    ensures SmallToken("capital") == None
  {
    assert "capital" !in SmallNames;
  }

  lemma NotTensCapital()
    ensures TensToken("capital") == None
  {
    assert "capital" !in TensNames;
  }

  lemma NotScaleCapital()
    ensures ScaleWordIndex("capital") == None
  {
  }

  lemma NotDigitsCapital()
    ensures DigitsPart("capital") == None
  {
    assert !IsDigit("capital"[0]);
  }

  lemma ReadCapital(shortScale: bool)
    ensures Classify("capital", shortScale) == OtherWord
  {
    NotSmallCapital();
    NotTensCapital();
    NotScaleCapital();
    NotDigitsCapital();
    OrdinaryWord("capital", shortScale);
  }

  lemma NotSmallLetter()
    ensures SmallToken("letter") == None
  {
    assert "letter" !in SmallNames;
  }

  lemma NotTensLetter()
    ensures TensToken("letter") == None
  {
    assert "letter" !in TensNames;
  }

  lemma NotScaleLetter()
    ensures ScaleWordIndex("letter") == None
  {
  }

  lemma NotDigitsLetter()
    ensures DigitsPart("letter") == None
  {
    assert !IsDigit("letter"[0]);
  }

  lemma ReadLetter(shortScale: bool)
    ensures Classify("letter", shortScale) == OtherWord
  {
    NotSmallLetter();
    NotTensLetter();
    NotScaleLetter();
    NotDigitsLetter();
    OrdinaryWord("letter", shortScale);
  }

  lemma NotSmallLetters()
    ensures SmallToken("letters") == None
  {
    assert "letters" !in SmallNames;
  }

  lemma NotTensLetters()
    ensures TensToken("letters") == None
  {
    assert "letters" !in TensNames;
  }

  lemma NotScaleLetters()
    ensures ScaleWordIndex("letters") == None
  {
  }

  lemma NotDigitsLetters()
    ensures DigitsPart("letters") == None
  {
    assert !IsDigit("letters"[0]);
  }

  lemma ReadLetters(shortScale: bool)
    ensures Classify("letters", shortScale) == OtherWord
  {
    NotSmallLetters();
    NotTensLetters();
    NotScaleLetters();
    NotDigitsLetters();
    OrdinaryWord("letters", shortScale);
  }

  lemma NotSmallMixed()
    ensures SmallToken("mixed") == None
  {
    assert "mixed" !in SmallNames;
  }

  lemma NotTensMixed()
    ensures TensToken("mixed") == None
  {
    assert "mixed" !in TensNames;
  }

  lemma NotScaleMixed()
    ensures ScaleWordIndex("mixed") == None
  {
  }

  lemma NotDigitsMixed()
    ensures DigitsPart("mixed") == None
  {
    assert !IsDigit("mixed"[0]);
  }

  lemma ReadMixed(shortScale: bool)
    ensures Classify("mixed", shortScale) == OtherWord
  {
    NotSmallMixed();
    NotTensMixed();
    NotScaleMixed();
    NotDigitsMixed();
    OrdinaryWord("mixed", shortScale);
  }

  lemma NotSmallHundred()
    ensures SmallToken("hundred") == None
  {
    assert "hundred" !in SmallNames;
  }

  lemma NotTensHundred()
    ensures TensToken("hundred") == None
  {
    assert "hundred" !in TensNames;
  }

  lemma ReadHundred(shortScale: bool)
    ensures Classify("hundred", shortScale) == HundredWord
  {
    NotSmallHundred();
    NotTensHundred();
  }

  lemma ReadNine(shortScale: bool)
    ensures Classify("nine", shortScale) == UnitWord(9)
  {
    assert SmallNames[9] == "nine";
    SmallEntry(9);
  }

  lemma NotSmallThousand()
    ensures SmallToken("thousand") == None
  {
    assert "thousand" !in SmallNames;
  }

  lemma NotTensThousand()
    ensures TensToken("thousand") == None
  {
    assert "thousand" !in TensNames;
  }

  lemma TableIndexThousand()
    ensures IndexOf(ScaleNames, "thousand") == Some(0)
  {
    IndexOfAt(ScaleNames, "thousand", 0);
  }

  lemma ScaleIndexThousand()
    ensures ScaleWordIndex("thousand") == Some(0)
  {
    TableIndexThousand();
  }

  lemma ScaleValuesThousand()
    ensures ScaleValue(0, true) == 1000 && ScaleValue(0, false) == 1000
  {
  }

  lemma ReadThousand(shortScale: bool)
    ensures Classify("thousand", shortScale) == ScaleWord(ScaleValue(0, shortScale))
  {
    NotSmallThousand();
    NotTensThousand();
    ScaleIndexThousand();
  }

  lemma ReadSix(shortScale: bool)
    ensures Classify("six", shortScale) == UnitWord(6)
  {
    assert SmallNames[6] == "six";
    SmallEntry(6);
  }

  lemma ReadSixty(shortScale: bool)
    ensures Classify("sixty", shortScale) == TensWord(60)
  {
    assert TensNames[4] == "sixty";
    TensEntry(6);
  }

  lemma NotSmallMillion()
    ensures SmallToken("million") == None
  {
    assert "million" !in SmallNames;
  }

  lemma NotTensMillion()
    ensures TensToken("million") == None
  {
    assert "million" !in TensNames;
  }

  lemma TableIndexMillion()
    ensures IndexOf(ScaleNames, "million") == Some(1)
  {
    IndexOfAt(ScaleNames, "million", 1);
  }

  lemma ScaleIndexMillion()
    ensures ScaleWordIndex("million") == Some(1)
  {
    TableIndexMillion();
  }

  lemma ScaleValuesMillion()
    ensures ScaleValue(1, true) == 1000000 && ScaleValue(1, false) == 1000000
  {
  }

  lemma ReadMillion(shortScale: bool)
    ensures Classify("million", shortScale) == ScaleWord(ScaleValue(1, shortScale))
  {
    NotSmallMillion();
    NotTensMillion();
    ScaleIndexMillion();
  }

  lemma ReadFive(shortScale: bool)
    ensures Classify("five", shortScale) == UnitWord(5)
  {
    assert SmallNames[5] == "five";
    SmallEntry(5);
  }

  lemma NotSmallTons()
    ensures SmallToken("tons") == None
  {
    assert "tons" !in SmallNames;
  }

  lemma NotTensTons()
    ensures TensToken("tons") == None
  {
    assert "tons" !in TensNames;
  }

  lemma NotScaleTons()
    ensures ScaleWordIndex("tons") == None
  {
  }

  lemma NotDigitsTons()
    ensures DigitsPart("tons") == None
  {
    assert !IsDigit("tons"[0]);
  }

  lemma ReadTons(shortScale: bool)
    ensures Classify("tons", shortScale) == OtherWord
  {
    NotSmallTons();
    NotTensTons();
    NotScaleTons();
    NotDigitsTons();
    OrdinaryWord("tons", shortScale);
  }

  lemma NotSmallSpinning()
    ensures SmallToken("spinning") == None
  {
    assert "spinning" !in SmallNames;
  }

  lemma NotTensSpinning()
    ensures TensToken("spinning") == None
  {
    assert "spinning" !in TensNames;
  }

  lemma NotScaleSpinning()
    ensures ScaleWordIndex("spinning") == None
  {
  }

  lemma NotDigitsSpinning()
    ensures DigitsPart("spinning") == None
  {
    assert !IsDigit("spinning"[0]);
  }

  lemma ReadSpinning(shortScale: bool)
    ensures Classify("spinning", shortScale) == OtherWord
  {
    NotSmallSpinning();
    NotTensSpinning();
    NotScaleSpinning();
    NotDigitsSpinning();
    OrdinaryWord("spinning", shortScale);
  }

  lemma NotSmallMetal()
    ensures SmallToken("metal") == None
  {
    assert "metal" !in SmallNames;
  }

  lemma NotTensMetal()
    ensures TensToken("metal") == None
  {
    assert "metal" !in TensNames;
  }

  lemma NotScaleMetal()
    ensures ScaleWordIndex("metal") == None
  {
  }

  lemma NotDigitsMetal()
    ensures DigitsPart("metal") == None
  {
    assert !IsDigit("metal"[0]);
  }

  lemma ReadMetal(shortScale: bool)
    ensures Classify("metal", shortScale) == OtherWord
  {
    NotSmallMetal();
    NotTensMetal();
    NotScaleMetal();
    NotDigitsMetal();
    OrdinaryWord("metal", shortScale);
  }

  lemma NotSmallTrillion()
    ensures SmallToken("trillion") == None
  {
    assert "trillion" !in SmallNames;
  }

  lemma NotTensTrillion()
    ensures TensToken("trillion") == None
  {
    assert "trillion" !in TensNames;
  }

  lemma TableIndexTrillion()
    ensures IndexOf(ScaleNames, "trillion") == Some(3)
  {
    IndexOfAt(ScaleNames, "trillion", 3);
  }

  lemma ScaleIndexTrillion()
    ensures ScaleWordIndex("trillion") == Some(3)
  {
    TableIndexTrillion();
  }

  lemma ScaleValuesTrillion()
    ensures ScaleValue(3, true) == 1000000000000 && ScaleValue(3, false) == 1000000000000000000
  {
  }

  lemma ReadTrillion(shortScale: bool)
    ensures Classify("trillion", shortScale) == ScaleWord(ScaleValue(3, shortScale))
  {
    NotSmallTrillion();
    NotTensTrillion();
    ScaleIndexTrillion();
  }

  lemma NotSmallBillion()
    ensures SmallToken("billion") == None
  {
    assert "billion" !in SmallNames;
  }

  lemma NotTensBillion()
    ensures TensToken("billion") == None
  {
    assert "billion" !in TensNames;
  }

  lemma TableIndexBillion()
    ensures IndexOf(ScaleNames, "billion") == Some(2)
  {
    IndexOfAt(ScaleNames, "billion", 2);
  }

  lemma ScaleIndexBillion()
    ensures ScaleWordIndex("billion") == Some(2)
  {
    TableIndexBillion();
  }

  lemma ScaleValuesBillion()
    ensures ScaleValue(2, true) == 1000000000 && ScaleValue(2, false) == 1000000000000
  {
  }

  lemma ReadBillion(shortScale: bool)
    ensures Classify("billion", shortScale) == ScaleWord(ScaleValue(2, shortScale))
  {
    NotSmallBillion();
    NotTensBillion();
    ScaleIndexBillion();
  }

  lemma NotSmallBillions()
    ensures SmallToken("billions") == None
  {
    assert "billions" !in SmallNames;
  }

  lemma NotTensBillions()
    ensures TensToken("billions") == None
  {
    assert "billions" !in TensNames;
  }

  lemma ScaleIndexBillions()
    ensures ScaleWordIndex("billions") == Some(2)
  {
    ScaleIndexBillion();
    PluralScaleIndex("billions", "billion");
  }

  lemma ReadBillions(shortScale: bool)
    ensures Classify("billions", shortScale) == ScaleWord(ScaleValue(2, shortScale))
  {
    NotSmallBillions();
    NotTensBillions();
    ScaleIndexBillions();
  }

  lemma NotSmallYears()
    ensures SmallToken("years") == None
  {
    assert "years" !in SmallNames;
  }

  lemma NotTensYears()
    ensures TensToken("years") == None
  {
    assert "years" !in TensNames;
  }

  lemma NotScaleYears()
    ensures ScaleWordIndex("years") == None
  {
  }

  lemma NotDigitsYears()
    ensures DigitsPart("years") == None
  {
    assert !IsDigit("years"[0]);
  }

  lemma ReadYears(shortScale: bool)
    ensures Classify("years", shortScale) == OtherWord
  {
    NotSmallYears();
    NotTensYears();
    NotScaleYears();
    NotDigitsYears();
    OrdinaryWord("years", shortScale);
  }

  lemma NotSmallOlder()
    ensures SmallToken("older") == None
  {
    assert "older" !in SmallNames;
  }

  lemma NotTensOlder()
    ensures TensToken("older") == None
  {
    assert "older" !in TensNames;
  }

  lemma NotScaleOlder()
    ensures ScaleWordIndex("older") == None
  {
  }

  lemma NotDigitsOlder()
    ensures DigitsPart("older") == None
  {
    assert !IsDigit("older"[0]);
  }

  lemma ReadOlder(shortScale: bool)
    ensures Classify("older", shortScale) == OtherWord
  {
    NotSmallOlder();
    NotTensOlder();
    NotScaleOlder();
    NotDigitsOlder();
    OrdinaryWord("older", shortScale);
  }

  lemma NotSmallMinus()
    ensures SmallToken("minus") == None
  {
    assert "minus" !in SmallNames;
  }

  lemma NotTensMinus()
    ensures TensToken("minus") == None
  {
    assert "minus" !in TensNames;
  }

  lemma NotScaleMinus()
    ensures ScaleWordIndex("minus") == None
  {
  }

  lemma ReadMinus(shortScale: bool)
    ensures Classify("minus", shortScale) == SignWord
  {
    NotSmallMinus();
    NotTensMinus();
    NotScaleMinus();
  }

  lemma NotSmallNegative()
    ensures SmallToken("negative") == None
  {
    assert "negative" !in SmallNames;
  }

  lemma NotTensNegative()
    ensures TensToken("negative") == None
  {
    assert "negative" !in TensNames;
  }

  lemma NotScaleNegative()
    ensures ScaleWordIndex("negative") == None
  {
  }

  lemma ReadNegative(shortScale: bool)
    ensures Classify("negative", shortScale) == SignWord
  {
    NotSmallNegative();
    NotTensNegative();
    NotScaleNegative();
  }

  lemma ReadSeventy(shortScale: bool)
    ensures Classify("seventy", shortScale) == TensWord(70)
  {
    assert TensNames[5] == "seventy";
    TensEntry(7);
  }

  lemma ReadFifty(shortScale: bool)
    ensures Classify("fifty", shortScale) == TensWord(50)
  {
    assert TensNames[3] == "fifty";
    TensEntry(5);
  }

  lemma ReadEight(shortScale: bool)
    ensures Classify("eight", shortScale) == UnitWord(8)
  {
    assert SmallNames[8] == "eight";
    SmallEntry(8);
  }

  lemma ReadSeven(shortScale: bool)
    ensures Classify("seven", shortScale) == UnitWord(7)
  {
    assert SmallNames[7] == "seven";
    SmallEntry(7);
  }

  lemma NotSmallTennis()
    ensures SmallToken("tennis") == None
  {
    assert "tennis" !in SmallNames;
  }

  lemma NotTensTennis()
    ensures TensToken("tennis") == None
  {
    assert "tennis" !in TensNames;
  }

  lemma NotScaleTennis()
    ensures ScaleWordIndex("tennis") == None
  {
  }

  lemma NotDigitsTennis()
    ensures DigitsPart("tennis") == None
  {
    assert !IsDigit("tennis"[0]);
  }

  lemma ReadTennis(shortScale: bool)
    ensures Classify("tennis", shortScale) == OtherWord
  {
    NotSmallTennis();
    NotTensTennis();
    NotScaleTennis();
    NotDigitsTennis();
    OrdinaryWord("tennis", shortScale);
  }

  lemma NotSmallPlayer()
    ensures SmallToken("player") == None
  {
    assert "player" !in SmallNames;
  }

  lemma NotTensPlayer()
    ensures TensToken("player") == None
  {
    assert "player" !in TensNames;
  }

  lemma NotScalePlayer()
    ensures ScaleWordIndex("player") == None
  {
  }

  lemma NotDigitsPlayer()
    ensures DigitsPart("player") == None
  {
    assert !IsDigit("player"[0]);
  }

  lemma ReadPlayer(shortScale: bool)
    ensures Classify("player", shortScale) == OtherWord
  {
    NotSmallPlayer();
    NotTensPlayer();
    NotScalePlayer();
    NotDigitsPlayer();
    OrdinaryWord("player", shortScale);
  }

  lemma NotSmallFast()
    ensures SmallToken("fast") == None
  {
    assert "fast" !in SmallNames;
  }

  lemma NotTensFast()
    ensures TensToken("fast") == None
  {
    assert "fast" !in TensNames;
  }

  lemma NotScaleFast()
    ensures ScaleWordIndex("fast") == None
  {
  }

  lemma NotDigitsFast()
    ensures DigitsPart("fast") == None
  {
    assert !IsDigit("fast"[0]);
  }

  lemma ReadFast(shortScale: bool)
    ensures Classify("fast", shortScale) == OtherWord
  {
    NotSmallFast();
    NotTensFast();
    NotScaleFast();
    NotDigitsFast();
    OrdinaryWord("fast", shortScale);
  }

  lemma NotSmallFraggle()
    ensures SmallToken("fraggle") == None
  {
    assert "fraggle" !in SmallNames;
  }

  lemma NotTensFraggle()
    ensures TensToken("fraggle") == None
  {
    assert "fraggle" !in TensNames;
  }

  lemma NotScaleFraggle()
    ensures ScaleWordIndex("fraggle") == None
  {
  }

  lemma NotDigitsFraggle()
    ensures DigitsPart("fraggle") == None
  {
    assert !IsDigit("fraggle"[0]);
  }

  lemma ReadFraggle(shortScale: bool)
    ensures Classify("fraggle", shortScale) == OtherWord
  {
    NotSmallFraggle();
    NotTensFraggle();
    NotScaleFraggle();
    NotDigitsFraggle();
    OrdinaryWord("fraggle", shortScale);
  }

  lemma ReadZero(shortScale: bool)
    ensures Classify("zero", shortScale) == ZeroWord
  {
    assert SmallNames[0] == "zero";
    SmallEntry(0);
  }

  lemma NotSmallGrobo()
    ensures SmallToken("grobo") == None
  {
    assert "grobo" !in SmallNames;
  }

  lemma NotTensGrobo()
    ensures TensToken("grobo") == None
  {
    assert "grobo" !in TensNames;
  }

  lemma NotScaleGrobo()
    ensures ScaleWordIndex("grobo") == None
  {
  }

  lemma NotDigitsGrobo()
    ensures DigitsPart("grobo") == None
  {
    assert !IsDigit("grobo"[0]);
  }

  lemma ReadGrobo(shortScale: bool)
    ensures Classify("grobo", shortScale) == OtherWord
  {
    NotSmallGrobo();
    NotTensGrobo();
    NotScaleGrobo();
    NotDigitsGrobo();
    OrdinaryWord("grobo", shortScale);
  }

  lemma NotSmall0()
    ensures SmallToken("0") == None
  {
    assert "0" !in SmallNames;
  }

  lemma NotTens0()
    ensures TensToken("0") == None
  {
    assert "0" !in TensNames;
  }

  lemma NotScale0()
    ensures ScaleWordIndex("0") == None
  {
  }

  lemma DigitsOf0()
    ensures DigitsPart("0") == Some("0")
  {
    assert IsDigits("0");
  }

  lemma ValueOf0()
    ensures ParseNat("0") == 0
  {
  }

  lemma Read0(shortScale: bool)
    ensures Classify("0", shortScale) == Digits(0)
  {
    NotSmall0();
    NotTens0();
    NotScale0();
    DigitsOf0();
    ValueOf0();
  }

  lemma NotSmallCouple()
    ensures SmallToken("couple") == None
  {
    assert "couple" !in SmallNames;
  }

  lemma NotTensCouple()
    ensures TensToken("couple") == None
  {
    assert "couple" !in TensNames;
  }

  lemma NotScaleCouple()
    ensures ScaleWordIndex("couple") == None
  {
  }

  lemma ReadCouple(shortScale: bool)
    ensures Classify("couple", shortScale) == UnitWord(2)
  {
    NotSmallCouple();
    NotTensCouple();
    NotScaleCouple();
  }

  lemma NotSmallBeers()
    ensures SmallToken("beers") == None
  {
    assert "beers" !in SmallNames;
  }

  lemma NotTensBeers()
    ensures TensToken("beers") == None
  {
    assert "beers" !in TensNames;
  }

  lemma NotScaleBeers()
    ensures ScaleWordIndex("beers") == None
  {
  }

  lemma NotDigitsBeers()
    ensures DigitsPart("beers") == None
  {
    assert !IsDigit("beers"[0]);
  }

  lemma ReadBeers(shortScale: bool)
    ensures Classify("beers", shortScale) == OtherWord
  {
    NotSmallBeers();
    NotTensBeers();
    NotScaleBeers();
    NotDigitsBeers();
    OrdinaryWord("beers", shortScale);
  }

  lemma NotSmallTotally()
    ensures SmallToken("totally") == None
  {
    assert "totally" !in SmallNames;
  }

  lemma NotTensTotally()
    ensures TensToken("totally") == None
  {
    assert "totally" !in TensNames;
  }

  lemma NotScaleTotally()
    ensures ScaleWordIndex("totally") == None
  {
  }

  lemma NotDigitsTotally()
    ensures DigitsPart("totally") == None
  {
    assert !IsDigit("totally"[0]);
  }

  lemma ReadTotally(shortScale: bool)
    ensures Classify("totally", shortScale) == OtherWord
  {
    NotSmallTotally();
    NotTensTotally();
    NotScaleTotally();
    NotDigitsTotally();
    OrdinaryWord("totally", shortScale);
  }

  lemma NotSmall100Percent()
    ensures SmallToken("100%") == None
  {
    assert "100%" !in SmallNames;
  }

  lemma NotTens100Percent()
    ensures TensToken("100%") == None
  {
    assert "100%" !in TensNames;
  }

  lemma NotScale100Percent()
    ensures ScaleWordIndex("100%") == None
  {
  }

  lemma DigitsOf100Percent()
    ensures DigitsPart("100%") == Some("100")
  {
    assert !IsDigit("100%"[3]);
    assert "100%"[..3] == "100";
    assert IsDigits("100");
  }

  lemma ValueOf100Percent()
    ensures ParseNat("100") == 100
  {
  }

  lemma Read100Percent(shortScale: bool)
    ensures Classify("100%", shortScale) == Digits(100)
  {
    NotSmall100Percent();
    NotTens100Percent();
    NotScale100Percent();
    DigitsOf100Percent();
    ValueOf100Percent();
  }

  lemma NotSmallItAposs()
    ensures SmallToken("it's") == None
  {
    assert "it's" !in SmallNames;
  }

  lemma NotTensItAposs()
    ensures TensToken("it's") == None
  {
    assert "it's" !in TensNames;
  }

  lemma NotScaleItAposs()
    ensures ScaleWordIndex("it's") == None
  {
  }

  lemma NotDigitsItAposs()
    ensures DigitsPart("it's") == None
  {
    assert !IsDigit("it's"[0]);
  }

  lemma ReadItAposs(shortScale: bool)
    ensures Classify("it's", shortScale) == OtherWord
  {
    NotSmallItAposs();
    NotTensItAposs();
    NotScaleItAposs();
    NotDigitsItAposs();
    OrdinaryWord("it's", shortScale);
  }

  lemma ReadFour(shortScale: bool)
    ensures Classify("four", shortScale) == UnitWord(4)
  {
    assert SmallNames[4] == "four";
    SmallEntry(4);
  }

  lemma ReadTen(shortScale: bool)
    ensures Classify("ten", shortScale) == TeenWord(10)
  {
    assert SmallNames[10] == "ten";
    SmallEntry(10);
  }

  lemma ReadEleven(shortScale: bool)
    ensures Classify("eleven", shortScale) == TeenWord(11)
  {
    assert SmallNames[11] == "eleven";
    SmallEntry(11);
  }

  lemma ReadTwelve(shortScale: bool)
    ensures Classify("twelve", shortScale) == TeenWord(12)
  {
    assert SmallNames[12] == "twelve";
    SmallEntry(12);
  }

  lemma NotSmall1()
    ensures SmallToken("1") == None
  {
    assert "1" !in SmallNames;
  }

  lemma NotTens1()
    ensures TensToken("1") == None
  {
    assert "1" !in TensNames;
  }

  lemma NotScale1()
    ensures ScaleWordIndex("1") == None
  {
  }

  lemma DigitsOf1()
    ensures DigitsPart("1") == Some("1")
  {
    assert IsDigits("1");
  }

  lemma ValueOf1()
    ensures ParseNat("1") == 1
  {
  }

  lemma Read1(shortScale: bool)
    ensures Classify("1", shortScale) == Digits(1)
  {
    NotSmall1();
    NotTens1();
    NotScale1();
    DigitsOf1();
    ValueOf1();
  }

  lemma NotSmallDogComma()
    ensures SmallToken("dog,") == None
  {
    assert "dog," !in SmallNames;
  }

  lemma NotTensDogComma()
    ensures TensToken("dog,") == None
  {
    assert "dog," !in TensNames;
  }

  lemma NotScaleDogComma()
    ensures ScaleWordIndex("dog,") == None
  {
  }

  lemma NotDigitsDogComma()
    ensures DigitsPart("dog,") == None
  {
    assert !IsDigit("dog,"[0]);
  }

  lemma ReadDogComma(shortScale: bool)
    ensures Classify("dog,", shortScale) == OtherWord
  {
    NotSmallDogComma();
    NotTensDogComma();
    NotScaleDogComma();
    NotDigitsDogComma();
    OrdinaryWord("dog,", shortScale);
  }

  lemma NotSmallPigsComma()
    ensures SmallToken("pigs,") == None
  {
    assert "pigs," !in SmallNames;
  }

  lemma NotTensPigsComma()
    ensures TensToken("pigs,") == None
  {
    assert "pigs," !in TensNames;
  }

  lemma NotScalePigsComma()
    ensures ScaleWordIndex("pigs,") == None
  {
  }

  lemma NotDigitsPigsComma()
    ensures DigitsPart("pigs,") == None
  {
    assert !IsDigit("pigs,"[0]);
  }

  lemma ReadPigsComma(shortScale: bool)
    ensures Classify("pigs,", shortScale) == OtherWord
  {
    NotSmallPigsComma();
    NotTensPigsComma();
    NotScalePigsComma();
    NotDigitsPigsComma();
    OrdinaryWord("pigs,", shortScale);
  }

  lemma NotSmallMacdonald()
    ensures SmallToken("macdonald") == None
  {
    assert "macdonald" !in SmallNames;
  }

  lemma NotTensMacdonald()
    ensures TensToken("macdonald") == None
  {
    assert "macdonald" !in TensNames;
  }

  lemma NotScaleMacdonald()
    ensures ScaleWordIndex("macdonald") == None
  {
  }

  lemma NotDigitsMacdonald()
    ensures DigitsPart("macdonald") == None
  {
    assert !IsDigit("macdonald"[0]);
  }

  lemma ReadMacdonald(shortScale: bool)
    ensures Classify("macdonald", shortScale) == OtherWord
  {
    NotSmallMacdonald();
    NotTensMacdonald();
    NotScaleMacdonald();
    NotDigitsMacdonald();
    OrdinaryWord("macdonald", shortScale);
  }

  lemma NotSmallHad()
    ensures SmallToken("had") == None
  {
    assert "had" !in SmallNames;
  }

  lemma NotTensHad()
    ensures TensToken("had") == None
  {
    assert "had" !in TensNames;
  }

  lemma NotScaleHad()
    ensures ScaleWordIndex("had") == None
  {
  }

  lemma NotDigitsHad()
    ensures DigitsPart("had") == None
  {
    assert !IsDigit("had"[0]);
  }

  lemma ReadHad(shortScale: bool)
    ensures Classify("had", shortScale) == OtherWord
  {
    NotSmallHad();
    NotTensHad();
    NotScaleHad();
    NotDigitsHad();
    OrdinaryWord("had", shortScale);
  }

  lemma NotSmallFarmComma()
    ensures SmallToken("farm,") == None
  {
    assert "farm," !in SmallNames;
  }

  lemma NotTensFarmComma()
    ensures TensToken("farm,") == None
  {
    assert "farm," !in TensNames;
  }

  lemma NotScaleFarmComma()
    ensures ScaleWordIndex("farm,") == None
  {
  }

  lemma NotDigitsFarmComma()
    ensures DigitsPart("farm,") == None
  {
    assert !IsDigit("farm,"[0]);
  }

  lemma ReadFarmComma(shortScale: bool)
    ensures Classify("farm,", shortScale) == OtherWord
  {
    NotSmallFarmComma();
    NotTensFarmComma();
    NotScaleFarmComma();
    NotDigitsFarmComma();
    OrdinaryWord("farm,", shortScale);
  }

  lemma NotSmall3()
    ensures SmallToken("3") == None
  {
    assert "3" !in SmallNames;
  }

  lemma NotTens3()
    ensures TensToken("3") == None
  {
    assert "3" !in TensNames;
  }

  lemma NotScale3()
    ensures ScaleWordIndex("3") == None
  {
  }

  lemma DigitsOf3()
    ensures DigitsPart("3") == Some("3")
  {
    assert IsDigits("3");
  }

  lemma ValueOf3()
    ensures ParseNat("3") == 3
  {
  }

  lemma Read3(shortScale: bool)
    ensures Classify("3", shortScale) == Digits(3)
  {
    NotSmall3();
    NotTens3();
    NotScale3();
    DigitsOf3();
    ValueOf3();
  }

  lemma NotSmallTimes()
    ensures SmallToken("times") == None
  {
    assert "times" !in SmallNames;
  }

  lemma NotTensTimes()
    ensures TensToken("times") == None
  {
    assert "times" !in TensNames;
  }

  lemma NotScaleTimes()
    ensures ScaleWordIndex("times") == None
  {
  }

  lemma NotDigitsTimes()
    ensures DigitsPart("times") == None
  {
    assert !IsDigit("times"[0]);
  }

  lemma ReadTimes(shortScale: bool)
    ensures Classify("times", shortScale) == OtherWord
  {
    NotSmallTimes();
    NotTensTimes();
    NotScaleTimes();
    NotDigitsTimes();
    OrdinaryWord("times", shortScale);
  }

  lemma NotSmall5()
    ensures SmallToken("5") == None
  {
    assert "5" !in SmallNames;
  }

  lemma NotTens5()
    ensures TensToken("5") == None
  {
    assert "5" !in TensNames;
  }

  lemma NotScale5()
    ensures ScaleWordIndex("5") == None
  {
  }

  lemma DigitsOf5()
    ensures DigitsPart("5") == Some("5")
  {
    assert IsDigits("5");
  }

  lemma ValueOf5()
    ensures ParseNat("5") == 5
  {
  }

  lemma Read5(shortScale: bool)
    ensures Classify("5", shortScale) == Digits(5)
  {
    NotSmall5();
    NotTens5();
    NotScale5();
    DigitsOf5();
    ValueOf5();
  }

  lemma NotSmallMacarena()
    ensures SmallToken("macarena") == None
  {
    assert "macarena" !in SmallNames;
  }

  lemma NotTensMacarena()
    ensures TensToken("macarena") == None
  {
    assert "macarena" !in TensNames;
  }

  lemma NotScaleMacarena()
    ensures ScaleWordIndex("macarena") == None
  {
  }

  lemma NotDigitsMacarena()
    ensures DigitsPart("macarena") == None
  {
    assert !IsDigit("macarena"[0]);
  }

  lemma ReadMacarena(shortScale: bool)
    ensures Classify("macarena", shortScale) == OtherWord
  {
    NotSmallMacarena();
    NotTensMacarena();
    NotScaleMacarena();
    NotDigitsMacarena();
    OrdinaryWord("macarena", shortScale);
  }

  lemma NotSmallFor()
    ensures SmallToken("for") == None
  {
    assert "for" !in SmallNames;
  }

  lemma NotTensFor()
    ensures TensToken("for") == None
  {
    assert "for" !in TensNames;
  }

  lemma NotScaleFor()
    ensures ScaleWordIndex("for") == None
  {
  }

  lemma NotDigitsFor()
    ensures DigitsPart("for") == None
  {
    assert !IsDigit("for"[0]);
  }

  lemma ReadFor(shortScale: bool)
    ensures Classify("for", shortScale) == OtherWord
  {
    NotSmallFor();
    NotTensFor();
    NotScaleFor();
    NotDigitsFor();
    OrdinaryWord("for", shortScale);
  }

  lemma NotSmallBears()
    ensures SmallToken("bears") == None
  {
    assert "bears" !in SmallNames;
  }

  lemma NotTensBears()
    ensures TensToken("bears") == None
  {
    assert "bears" !in TensNames;
  }

  lemma NotScaleBears()
    ensures ScaleWordIndex("bears") == None
  {
  }

  lemma NotDigitsBears()
    ensures DigitsPart("bears") == None
  {
    assert !IsDigit("bears"[0]);
  }

  lemma ReadBears(shortScale: bool)
    ensures Classify("bears", shortScale) == OtherWord
  {
    NotSmallBears();
    NotTensBears();
    NotScaleBears();
    NotDigitsBears();
    OrdinaryWord("bears", shortScale);
  }

  lemma NotSmall20()
    ensures SmallToken("20") == None
  {
    assert "20" !in SmallNames;
  }

  lemma NotTens20()
    ensures TensToken("20") == None
  {
    assert "20" !in TensNames;
  }

  lemma NotScale20()
    ensures ScaleWordIndex("20") == None
  {
  }

  lemma DigitsOf20()
    ensures DigitsPart("20") == Some("20")
  {
    assert IsDigits("20");
  }

  lemma ValueOf20()
    ensures ParseNat("20") == 20
  {
  }

  lemma Read20(shortScale: bool)
    ensures Classify("20", shortScale) == Digits(20)
  {
    NotSmall20();
    NotTens20();
    NotScale20();
    DigitsOf20();
    ValueOf20();
  }

  lemma NotSmall22()
    ensures SmallToken("22") == None
  {
    assert "22" !in SmallNames;
  }

  lemma NotTens22()
    ensures TensToken("22") == None
  {
    assert "22" !in TensNames;
  }

  lemma NotScale22()
    ensures ScaleWordIndex("22") == None
  {
  }

  lemma DigitsOf22()
    ensures DigitsPart("22") == Some("22")
  {
    assert IsDigits("22");
  }

  lemma ValueOf22()
    ensures ParseNat("22") == 22
  {
  }

  lemma Read22(shortScale: bool)
    ensures Classify("22", shortScale) == Digits(22)
  {
    NotSmall22();
    NotTens22();
    NotScale22();
    DigitsOf22();
    ValueOf22();
  }

  lemma NotSmallPigs()
    ensures SmallToken("pigs") == None
  {
    assert "pigs" !in SmallNames;
  }

  lemma NotTensPigs()
    ensures TensToken("pigs") == None
  {
    assert "pigs" !in TensNames;
  }

  lemma NotScalePigs()
    ensures ScaleWordIndex("pigs") == None
  {
  }

  lemma NotDigitsPigs()
    ensures DigitsPart("pigs") == None
  {
    assert !IsDigit("pigs"[0]);
  }

  lemma ReadPigs(shortScale: bool)
    ensures Classify("pigs", shortScale) == OtherWord
  {
    NotSmallPigs();
    NotTensPigs();
    NotScalePigs();
    NotDigitsPigs();
    OrdinaryWord("pigs", shortScale);
  }

  lemma NotSmallAnd()
    ensures SmallToken("and") == None
  {
    assert "and" !in SmallNames;
  }

  lemma NotTensAnd()
    ensures TensToken("and") == None
  {
    assert "and" !in TensNames;
  }

  lemma NotScaleAnd()
    ensures ScaleWordIndex("and") == None
  {
  }

  lemma ReadAnd(shortScale: bool)
    ensures Classify("and", shortScale) == AndWord
  {
    NotSmallAnd();
    NotTensAnd();
    NotScaleAnd();
  }

  lemma NotSmallBacteria()
    ensures SmallToken("bacteria") == None
  {
    assert "bacteria" !in SmallNames;
  }

  lemma NotTensBacteria()
    ensures TensToken("bacteria") == None
  {
    assert "bacteria" !in TensNames;
  }

  lemma NotScaleBacteria()
    ensures ScaleWordIndex("bacteria") == None
  {
  }

  lemma NotDigitsBacteria()
    ensures DigitsPart("bacteria") == None
  {
    assert !IsDigit("bacteria"[0]);
  }

  lemma ReadBacteria(shortScale: bool)
    ensures Classify("bacteria", shortScale) == OtherWord
  {
    NotSmallBacteria();
    NotTensBacteria();
    NotScaleBacteria();
    NotDigitsBacteria();
    OrdinaryWord("bacteria", shortScale);
  }

  lemma ExtractThisIsThe1stWordsUpto1(s: string)
    requires s == "this"
    ensures Words(Lower(s)) == ["this"]
  {
    LowerWordsSingle(s, "this");
  }

  lemma ExtractThisIsThe1stWordsUpto2(s: string)
    requires s == "this is"
    ensures Words(Lower(s)) == ["this", "is"]
  {
    var p := s[..4];
    LowerWordsNext(s, p, 1, "is", "is");
    ExtractThisIsThe1stWordsUpto1(p);
  }

  lemma ExtractThisIsThe1stWordsUpto3(s: string)
    requires s == "this is the"
    ensures Words(Lower(s)) == ["this", "is", "the"]
  {
    var p := s[..7];
    LowerWordsNext(s, p, 1, "the", "the");
    ExtractThisIsThe1stWordsUpto2(p);
  }

  lemma ExtractThisIsThe1stWordsUpto4(s: string)
    requires s == "this is the 1st"
    ensures Words(Lower(s)) == ["this", "is", "the", "1st"]
  {
    var p := s[..11];
    LowerWordsNext(s, p, 1, "1st", "1st");
    ExtractThisIsThe1stWordsUpto3(p);
  }

  lemma ExtractThisIsThe1stReadings0(ws: seq<string>, ts: seq<Token>, shortScale: bool)
    requires ws == ["this", "is", "the", "1st"]
    requires ts == [OtherWord, OtherWord, OtherWord, Digits(1)]
    ensures Tokens(ws, shortScale) == ts
  {
    forall i | 0 <= i < 4
      ensures Classify(ws[i], shortScale) == ts[i]
    {
      if i == 0 { ReadThis(shortScale); }
      else if i == 1 { ReadIs(shortScale); }
      else if i == 2 { ReadThe(shortScale); }
      else if i == 3 { Read1st(shortScale); }
    }
    TokensOfReadings(ws, ts, shortScale);
  }

  lemma ExtractThisIsThe1stReadings(shortScale: bool)
    ensures Tokens(["this", "is", "the", "1st"], shortScale) == [OtherWord, OtherWord, OtherWord, Digits(1)]
  {
    ExtractThisIsThe1stReadings0(["this", "is", "the", "1st"], [OtherWord, OtherWord, OtherWord, Digits(1)], shortScale);
  }

  lemma ExtractThisIsThe1stScan0(ts: seq<Token>)
    requires ts == [OtherWord, OtherWord, OtherWord, Digits(1)]
    ensures Scan(ts, None, false) == [1]
  {
    ExtractThisIsThe1stScan1(ts[1..]);
  }

  lemma ExtractThisIsThe1stScan1(ts: seq<Token>)
    requires ts == [OtherWord, OtherWord, Digits(1)]
    ensures Scan(ts, None, false) == [1]
  {
    ExtractThisIsThe1stScan2(ts[1..]);
  }

  lemma ExtractThisIsThe1stScan2(ts: seq<Token>)
    requires ts == [OtherWord, Digits(1)]
    ensures Scan(ts, None, false) == [1]
  {
    ExtractThisIsThe1stScan3(ts[1..]);
  }

  lemma ExtractThisIsThe1stScan3(ts: seq<Token>)
    requires ts == [Digits(1)]
    ensures Scan(ts, None, false) == [1]
  {
  }

  /** test/test_parse.py:100-101 */
  lemma ExtractThisIsThe1st()
    ensures ExtractNumber("this is the 1st", true) == Some(1)
  {
    ExtractThisIsThe1stWordsUpto4("this is the 1st");
    ExtractThisIsThe1stReadings(true);
    ExtractThisIsThe1stScan0([OtherWord, OtherWord, OtherWord, Digits(1)]);
  }

  lemma ExtractThisIsThe2ndWordsUpto1(s: string)
    requires s == "this"
    ensures Words(Lower(s)) == ["this"]
  {
    LowerWordsSingle(s, "this");
  }

  lemma ExtractThisIsThe2ndWordsUpto2(s: string)
    requires s == "this is"
    ensures Words(Lower(s)) == ["this", "is"]
  {
    var p := s[..4];
    LowerWordsNext(s, p, 1, "is", "is");
    ExtractThisIsThe2ndWordsUpto1(p);
  }

  lemma ExtractThisIsThe2ndWordsUpto3(s: string)
    requires s == "this is the"
    ensures Words(Lower(s)) == ["this", "is", "the"]
  {
    var p := s[..7];
    LowerWordsNext(s, p, 1, "the", "the");
    ExtractThisIsThe2ndWordsUpto2(p);
  }

  lemma ExtractThisIsThe2ndWordsUpto4(s: string)
    requires s == "this is the 2nd"
    ensures Words(Lower(s)) == ["this", "is", "the", "2nd"]
  {
    var p := s[..11];
    LowerWordsNext(s, p, 1, "2nd", "2nd");
    ExtractThisIsThe2ndWordsUpto3(p);
  }

  lemma ExtractThisIsThe2ndReadings0(ws: seq<string>, ts: seq<Token>, shortScale: bool)
    requires ws == ["this", "is", "the", "2nd"]
    requires ts == [OtherWord, OtherWord, OtherWord, Digits(2)]
    ensures Tokens(ws, shortScale) == ts
  {
    forall i | 0 <= i < 4
      ensures Classify(ws[i], shortScale) == ts[i]
    {
      if i == 0 { ReadThis(shortScale); }
      else if i == 1 { ReadIs(shortScale); }
      else if i == 2 { ReadThe(shortScale); }
      else if i == 3 { Read2nd(shortScale); }
    }
    TokensOfReadings(ws, ts, shortScale);
  }

  lemma ExtractThisIsThe2ndReadings(shortScale: bool)
    ensures Tokens(["this", "is", "the", "2nd"], shortScale) == [OtherWord, OtherWord, OtherWord, Digits(2)]
  {
    ExtractThisIsThe2ndReadings0(["this", "is", "the", "2nd"], [OtherWord, OtherWord, OtherWord, Digits(2)], shortScale);
  }

  lemma ExtractThisIsThe2ndScan0(ts: seq<Token>)
    requires ts == [OtherWord, OtherWord, OtherWord, Digits(2)]
    ensures Scan(ts, None, false) == [2]
  {
    ExtractThisIsThe2ndScan1(ts[1..]);
  }

  lemma ExtractThisIsThe2ndScan1(ts: seq<Token>)
    requires ts == [OtherWord, OtherWord, Digits(2)]
    ensures Scan(ts, None, false) == [2]
  {
    ExtractThisIsThe2ndScan2(ts[1..]);
  }

  lemma ExtractThisIsThe2ndScan2(ts: seq<Token>)
    requires ts == [OtherWord, Digits(2)]
    ensures Scan(ts, None, false) == [2]
  {
    ExtractThisIsThe2ndScan3(ts[1..]);
  }

  lemma ExtractThisIsThe2ndScan3(ts: seq<Token>)
    requires ts == [Digits(2)]
    ensures Scan(ts, None, false) == [2]
  {
  }

  /** test/test_parse.py:102-103 */
  lemma ExtractThisIsThe2nd()
    ensures ExtractNumber("this is the 2nd", true) == Some(2)
  {
    ExtractThisIsThe2ndWordsUpto4("this is the 2nd");
    ExtractThisIsThe2ndReadings(true);
    ExtractThisIsThe2ndScan0([OtherWord, OtherWord, OtherWord, Digits(2)]);
  }

  lemma ExtractThisIsThe3rdWordsUpto1(s: string)
    requires s == "this"
    ensures Words(Lower(s)) == ["this"]
  {
    LowerWordsSingle(s, "this");
  }

  lemma ExtractThisIsThe3rdWordsUpto2(s: string)
    requires s == "this is"
    ensures Words(Lower(s)) == ["this", "is"]
  {
    var p := s[..4];
    LowerWordsNext(s, p, 1, "is", "is");
    ExtractThisIsThe3rdWordsUpto1(p);
  }

  lemma ExtractThisIsThe3rdWordsUpto3(s: string)
    requires s == "this is the"
    ensures Words(Lower(s)) == ["this", "is", "the"]
  {
    var p := s[..7];
    LowerWordsNext(s, p, 1, "the", "the");
    ExtractThisIsThe3rdWordsUpto2(p);
  }

  lemma ExtractThisIsThe3rdWordsUpto4(s: string)
    requires s == "this is the 3rd"
    ensures Words(Lower(s)) == ["this", "is", "the", "3rd"]
  {
    var p := s[..11];
    LowerWordsNext(s, p, 1, "3rd", "3rd");
    ExtractThisIsThe3rdWordsUpto3(p);
  }

  lemma ExtractThisIsThe3rdReadings0(ws: seq<string>, ts: seq<Token>, shortScale: bool)
    requires ws == ["this", "is", "the", "3rd"]
    requires ts == [OtherWord, OtherWord, OtherWord, Digits(3)]
    ensures Tokens(ws, shortScale) == ts
  {
    forall i | 0 <= i < 4
      ensures Classify(ws[i], shortScale) == ts[i]
    {
      if i == 0 { ReadThis(shortScale); }
      else if i == 1 { ReadIs(shortScale); }
      else if i == 2 { ReadThe(shortScale); }
      else if i == 3 { Read3rd(shortScale); }
    }
    TokensOfReadings(ws, ts, shortScale);
  }

  lemma ExtractThisIsThe3rdReadings(shortScale: bool)
    ensures Tokens(["this", "is", "the", "3rd"], shortScale) == [OtherWord, OtherWord, OtherWord, Digits(3)]
  {
    ExtractThisIsThe3rdReadings0(["this", "is", "the", "3rd"], [OtherWord, OtherWord, OtherWord, Digits(3)], shortScale);
  }

  lemma ExtractThisIsThe3rdScan0(ts: seq<Token>)
    requires ts == [OtherWord, OtherWord, OtherWord, Digits(3)]
    ensures Scan(ts, None, false) == [3]
  {
    ExtractThisIsThe3rdScan1(ts[1..]);
  }

  lemma ExtractThisIsThe3rdScan1(ts: seq<Token>)
    requires ts == [OtherWord, OtherWord, Digits(3)]
    ensures Scan(ts, None, false) == [3]
  {
    ExtractThisIsThe3rdScan2(ts[1..]);
  }

  lemma ExtractThisIsThe3rdScan2(ts: seq<Token>)
    requires ts == [OtherWord, Digits(3)]
    ensures Scan(ts, None, false) == [3]
  {
    ExtractThisIsThe3rdScan3(ts[1..]);
  }

  lemma ExtractThisIsThe3rdScan3(ts: seq<Token>)
    requires ts == [Digits(3)]
    ensures Scan(ts, None, false) == [3]
  {
  }

  /** test/test_parse.py:104-105 */
  lemma ExtractThisIsThe3rd()
    ensures ExtractNumber("this is the 3rd", true) == Some(3)
  {
    ExtractThisIsThe3rdWordsUpto4("this is the 3rd");
    ExtractThisIsThe3rdReadings(true);
    ExtractThisIsThe3rdScan0([OtherWord, OtherWord, OtherWord, Digits(3)]);
  }

  lemma ExtractThisIsThe4thWordsUpto1(s: string)
    requires s == "this"
    ensures Words(Lower(s)) == ["this"]
  {
    LowerWordsSingle(s, "this");
  }

  lemma ExtractThisIsThe4thWordsUpto2(s: string)
    requires s == "this is"
    ensures Words(Lower(s)) == ["this", "is"]
  {
    var p := s[..4];
    LowerWordsNext(s, p, 1, "is", "is");
    ExtractThisIsThe4thWordsUpto1(p);
  }

  lemma ExtractThisIsThe4thWordsUpto3(s: string)
    requires s == "this is the"
    ensures Words(Lower(s)) == ["this", "is", "the"]
  {
    var p := s[..7];
    LowerWordsNext(s, p, 1, "the", "the");
    ExtractThisIsThe4thWordsUpto2(p);
  }

  lemma ExtractThisIsThe4thWordsUpto4(s: string)
    requires s == "this is the 4th"
    ensures Words(Lower(s)) == ["this", "is", "the", "4th"]
  {
    var p := s[..11];
    LowerWordsNext(s, p, 1, "4th", "4th");
    ExtractThisIsThe4thWordsUpto3(p);
  }

  lemma ExtractThisIsThe4thReadings0(ws: seq<string>, ts: seq<Token>, shortScale: bool)
    requires ws == ["this", "is", "the", "4th"]
    requires ts == [OtherWord, OtherWord, OtherWord, Digits(4)]
    ensures Tokens(ws, shortScale) == ts
  {
    forall i | 0 <= i < 4
      ensures Classify(ws[i], shortScale) == ts[i]
    {
      if i == 0 { ReadThis(shortScale); }
      else if i == 1 { ReadIs(shortScale); }
      else if i == 2 { ReadThe(shortScale); }
      else if i == 3 { Read4th(shortScale); }
    }
    TokensOfReadings(ws, ts, shortScale);
  }

  lemma ExtractThisIsThe4thReadings(shortScale: bool)
    ensures Tokens(["this", "is", "the", "4th"], shortScale) == [OtherWord, OtherWord, OtherWord, Digits(4)]
  {
    ExtractThisIsThe4thReadings0(["this", "is", "the", "4th"], [OtherWord, OtherWord, OtherWord, Digits(4)], shortScale);
  }

  lemma ExtractThisIsThe4thScan0(ts: seq<Token>)
    requires ts == [OtherWord, OtherWord, OtherWord, Digits(4)]
    ensures Scan(ts, None, false) == [4]
  {
    ExtractThisIsThe4thScan1(ts[1..]);
  }

  lemma ExtractThisIsThe4thScan1(ts: seq<Token>)
    requires ts == [OtherWord, OtherWord, Digits(4)]
    ensures Scan(ts, None, false) == [4]
  {
    ExtractThisIsThe4thScan2(ts[1..]);
  }

  lemma ExtractThisIsThe4thScan2(ts: seq<Token>)
    requires ts == [OtherWord, Digits(4)]
    ensures Scan(ts, None, false) == [4]
  {
    ExtractThisIsThe4thScan3(ts[1..]);
  }

  lemma ExtractThisIsThe4thScan3(ts: seq<Token>)
    requires ts == [Digits(4)]
    ensures Scan(ts, None, false) == [4]
  {
  }

  /** test/test_parse.py:106-107 */
  lemma ExtractThisIsThe4th()
    ensures ExtractNumber("this is the 4th", true) == Some(4)
  {
    ExtractThisIsThe4thWordsUpto4("this is the 4th");
    ExtractThisIsThe4thReadings(true);
    ExtractThisIsThe4thScan0([OtherWord, OtherWord, OtherWord, Digits(4)]);
  }

  lemma ExtractThisIsThe7thTestWordsUpto1(s: string)
    requires s == "this"
    ensures Words(Lower(s)) == ["this"]
  {
    LowerWordsSingle(s, "this");
  }

  lemma ExtractThisIsThe7thTestWordsUpto2(s: string)
    requires s == "this is"
    ensures Words(Lower(s)) == ["this", "is"]
  {
    var p := s[..4];
    LowerWordsNext(s, p, 1, "is", "is");
    ExtractThisIsThe7thTestWordsUpto1(p);
  }

  lemma ExtractThisIsThe7thTestWordsUpto3(s: string)
    requires s == "this is the"
    ensures Words(Lower(s)) == ["this", "is", "the"]
  {
    var p := s[..7];
    LowerWordsNext(s, p, 1, "the", "the");
    ExtractThisIsThe7thTestWordsUpto2(p);
  }

  lemma ExtractThisIsThe7thTestWordsUpto4(s: string)
    requires s == "this is the 7th"
    ensures Words(Lower(s)) == ["this", "is", "the", "7th"]
  {
    var p := s[..11];
    LowerWordsNext(s, p, 1, "7th", "7th");
    ExtractThisIsThe7thTestWordsUpto3(p);
  }

  lemma ExtractThisIsThe7thTestWordsUpto5(s: string)
    requires s == "this is the 7th test"
    ensures Words(Lower(s)) == ["this", "is", "the", "7th", "test"]
  {
    var p := s[..15];
    LowerWordsNext(s, p, 1, "test", "test");
    ExtractThisIsThe7thTestWordsUpto4(p);
  }

  lemma ExtractThisIsThe7thTestReadings0(ws: seq<string>, ts: seq<Token>, shortScale: bool)
    requires ws == ["this", "is", "the", "7th"]
    requires ts == [OtherWord, OtherWord, OtherWord, Digits(7)]
    ensures Tokens(ws, shortScale) == ts
  {
    forall i | 0 <= i < 4
      ensures Classify(ws[i], shortScale) == ts[i]
    {
      if i == 0 { ReadThis(shortScale); }
      else if i == 1 { ReadIs(shortScale); }
      else if i == 2 { ReadThe(shortScale); }
      else if i == 3 { Read7th(shortScale); }
    }
    TokensOfReadings(ws, ts, shortScale);
  }

  lemma ExtractThisIsThe7thTestReadings1(ws: seq<string>, ts: seq<Token>, shortScale: bool)
    requires ws == ["test"]
    requires ts == [OtherWord]
    ensures Tokens(ws, shortScale) == ts
  {
    forall i | 0 <= i < 1
      ensures Classify(ws[i], shortScale) == ts[i]
    {
      if i == 0 { ReadTest(shortScale); }
    }
    TokensOfReadings(ws, ts, shortScale);
  }

  lemma ExtractThisIsThe7thTestWordChunks()
    ensures ["this", "is", "the", "7th", "test"] == ["this", "is", "the", "7th"] + ["test"]
  {
  }

  lemma ExtractThisIsThe7thTestTokenChunks(shortScale: bool)
    ensures [OtherWord, OtherWord, OtherWord, Digits(7), OtherWord] == [OtherWord, OtherWord, OtherWord, Digits(7)] + [OtherWord]
  {
  }

  lemma ExtractThisIsThe7thTestReadings(shortScale: bool)
    ensures Tokens(["this", "is", "the", "7th", "test"], shortScale) == [OtherWord, OtherWord, OtherWord, Digits(7), OtherWord]
  {
    var w0, w1 := ["this", "is", "the", "7th"], ["test"];
    var t0, t1 := [OtherWord, OtherWord, OtherWord, Digits(7)], [OtherWord];
    ExtractThisIsThe7thTestReadings0(w0, t0, shortScale);
    ExtractThisIsThe7thTestReadings1(w1, t1, shortScale);
    TokensJoin(w0, w1, t0, t1, shortScale);
    ExtractThisIsThe7thTestWordChunks();
    ExtractThisIsThe7thTestTokenChunks(shortScale);
  }

  lemma ExtractThisIsThe7thTestScan0(ts: seq<Token>)
    requires ts == [OtherWord, OtherWord, OtherWord, Digits(7), OtherWord]
    ensures Scan(ts, None, false) == [7]
  {
    ExtractThisIsThe7thTestScan1(ts[1..]);
  }

  lemma ExtractThisIsThe7thTestScan1(ts: seq<Token>)
    requires ts == [OtherWord, OtherWord, Digits(7), OtherWord]
    ensures Scan(ts, None, false) == [7]
  {
    ExtractThisIsThe7thTestScan2(ts[1..]);
  }

  lemma ExtractThisIsThe7thTestScan2(ts: seq<Token>)
    requires ts == [OtherWord, Digits(7), OtherWord]
    ensures Scan(ts, None, false) == [7]
  {
    ExtractThisIsThe7thTestScan3(ts[1..]);
  }

  lemma ExtractThisIsThe7thTestScan3(ts: seq<Token>)
    requires ts == [Digits(7), OtherWord]
    ensures Scan(ts, None, false) == [7]
  {
    ExtractThisIsThe7thTestScan4(ts[1..]);
  }

  lemma ExtractThisIsThe7thTestScan4(ts: seq<Token>)
    requires ts == [OtherWord]
    ensures Scan(ts, Some(Run(0, 7, Digits(7), false)), false) == [7]
  {
  }

  /** test/test_parse.py:108-111 */
  lemma ExtractThisIsThe7thTest()
    ensures ExtractNumber("this is the 7th test", true) == Some(7)
  {
    ExtractThisIsThe7thTestWordsUpto5("this is the 7th test");
    ExtractThisIsThe7thTestReadings(true);
    ExtractThisIsThe7thTestScan0([OtherWord, OtherWord, OtherWord, Digits(7), OtherWord]);
  }

  lemma ExtractThisIsTheNthTestWordsUpto1(s: string)
    requires s == "this"
    ensures Words(Lower(s)) == ["this"]
  {
    LowerWordsSingle(s, "this");
  }

  lemma ExtractThisIsTheNthTestWordsUpto2(s: string)
    requires s == "this is"
    ensures Words(Lower(s)) == ["this", "is"]
  {
    var p := s[..4];
    LowerWordsNext(s, p, 1, "is", "is");
    ExtractThisIsTheNthTestWordsUpto1(p);
  }

  lemma ExtractThisIsTheNthTestWordsUpto3(s: string)
    requires s == "this is the"
    ensures Words(Lower(s)) == ["this", "is", "the"]
  {
    var p := s[..7];
    LowerWordsNext(s, p, 1, "the", "the");
    ExtractThisIsTheNthTestWordsUpto2(p);
  }

  lemma ExtractThisIsTheNthTestWordsUpto4(s: string)
    requires s == "this is the nth"
    ensures Words(Lower(s)) == ["this", "is", "the", "nth"]
  {
    var p := s[..11];
    LowerWordsNext(s, p, 1, "nth", "nth");
    ExtractThisIsTheNthTestWordsUpto3(p);
  }

  lemma ExtractThisIsTheNthTestWordsUpto5(s: string)
    requires s == "this is the nth test"
    ensures Words(Lower(s)) == ["this", "is", "the", "nth", "test"]
  {
    var p := s[..15];
    LowerWordsNext(s, p, 1, "test", "test");
    ExtractThisIsTheNthTestWordsUpto4(p);
  }

  lemma ExtractThisIsTheNthTestReadings0(ws: seq<string>, ts: seq<Token>, shortScale: bool)
    requires ws == ["this", "is", "the", "nth"]
    requires ts == [OtherWord, OtherWord, OtherWord, OtherWord]
    ensures Tokens(ws, shortScale) == ts
  {
    forall i | 0 <= i < 4
      ensures Classify(ws[i], shortScale) == ts[i]
    {
      if i == 0 { ReadThis(shortScale); }
      else if i == 1 { ReadIs(shortScale); }
      else if i == 2 { ReadThe(shortScale); }
      else if i == 3 { ReadNth(shortScale); }
    }
    TokensOfReadings(ws, ts, shortScale);
  }

  lemma ExtractThisIsTheNthTestReadings1(ws: seq<string>, ts: seq<Token>, shortScale: bool)
    requires ws == ["test"]
    requires ts == [OtherWord]
    ensures Tokens(ws, shortScale) == ts
  {
    forall i | 0 <= i < 1
      ensures Classify(ws[i], shortScale) == ts[i]
    {
      if i == 0 { ReadTest(shortScale); }
    }
    TokensOfReadings(ws, ts, shortScale);
  }

  lemma ExtractThisIsTheNthTestWordChunks()
    ensures ["this", "is", "the", "nth", "test"] == ["this", "is", "the", "nth"] + ["test"]
  {
  }

  lemma ExtractThisIsTheNthTestTokenChunks(shortScale: bool)
    ensures [OtherWord, OtherWord, OtherWord, OtherWord, OtherWord] == [OtherWord, OtherWord, OtherWord, OtherWord] + [OtherWord]
  {
  }

  lemma ExtractThisIsTheNthTestReadings(shortScale: bool)
    ensures Tokens(["this", "is", "the", "nth", "test"], shortScale) == [OtherWord, OtherWord, OtherWord, OtherWord, OtherWord]
  {
    var w0, w1 := ["this", "is", "the", "nth"], ["test"];
    var t0, t1 := [OtherWord, OtherWord, OtherWord, OtherWord], [OtherWord];
    ExtractThisIsTheNthTestReadings0(w0, t0, shortScale);
    ExtractThisIsTheNthTestReadings1(w1, t1, shortScale);
    TokensJoin(w0, w1, t0, t1, shortScale);
    ExtractThisIsTheNthTestWordChunks();
    ExtractThisIsTheNthTestTokenChunks(shortScale);
  }

  lemma ExtractThisIsTheNthTestScan0(ts: seq<Token>)
    requires ts == [OtherWord, OtherWord, OtherWord, OtherWord, OtherWord]
    ensures Scan(ts, None, false) == []
  {
    ExtractThisIsTheNthTestScan1(ts[1..]);
  }

  lemma ExtractThisIsTheNthTestScan1(ts: seq<Token>)
    requires ts == [OtherWord, OtherWord, OtherWord, OtherWord]
    ensures Scan(ts, None, false) == []
  {
    ExtractThisIsTheNthTestScan2(ts[1..]);
  }

  lemma ExtractThisIsTheNthTestScan2(ts: seq<Token>)
    requires ts == [OtherWord, OtherWord, OtherWord]
    ensures Scan(ts, None, false) == []
  {
    ExtractThisIsTheNthTestScan3(ts[1..]);
  }

  lemma ExtractThisIsTheNthTestScan3(ts: seq<Token>)
    requires ts == [OtherWord, OtherWord]
    ensures Scan(ts, None, false) == []
  {
    ExtractThisIsTheNthTestScan4(ts[1..]);
  }

  lemma ExtractThisIsTheNthTestScan4(ts: seq<Token>)
    requires ts == [OtherWord]
    ensures Scan(ts, None, false) == []
  {
  }

  /** test/test_parse.py:112 */
  lemma ExtractThisIsTheNthTest()
    ensures ExtractNumber("this is the nth test", true) == None
  {
    ExtractThisIsTheNthTestWordsUpto5("this is the nth test");
    ExtractThisIsTheNthTestReadings(true);
    ExtractThisIsTheNthTestScan0([OtherWord, OtherWord, OtherWord, OtherWord, OtherWord]);
  }

  lemma ExtractThisIsThe1stTestWordsUpto1(s: string)
    requires s == "this"
    ensures Words(Lower(s)) == ["this"]
  {
    LowerWordsSingle(s, "this");
  }

  lemma ExtractThisIsThe1stTestWordsUpto2(s: string)
    requires s == "this is"
    ensures Words(Lower(s)) == ["this", "is"]
  {
    var p := s[..4];
    LowerWordsNext(s, p, 1, "is", "is");
    ExtractThisIsThe1stTestWordsUpto1(p);
  }

  lemma ExtractThisIsThe1stTestWordsUpto3(s: string)
    requires s == "this is the"
    ensures Words(Lower(s)) == ["this", "is", "the"]
  {
    var p := s[..7];
    LowerWordsNext(s, p, 1, "the", "the");
    ExtractThisIsThe1stTestWordsUpto2(p);
  }

  lemma ExtractThisIsThe1stTestWordsUpto4(s: string)
    requires s == "this is the 1st"
    ensures Words(Lower(s)) == ["this", "is", "the", "1st"]
  {
    var p := s[..11];
    LowerWordsNext(s, p, 1, "1st", "1st");
    ExtractThisIsThe1stTestWordsUpto3(p);
  }

  lemma ExtractThisIsThe1stTestWordsUpto5(s: string)
    requires s == "this is the 1st test"
    ensures Words(Lower(s)) == ["this", "is", "the", "1st", "test"]
  {
    var p := s[..15];
    LowerWordsNext(s, p, 1, "test", "test");
    ExtractThisIsThe1stTestWordsUpto4(p);
  }

  lemma ExtractThisIsThe1stTestReadings0(ws: seq<string>, ts: seq<Token>, shortScale: bool)
    requires ws == ["this", "is", "the", "1st"]
    requires ts == [OtherWord, OtherWord, OtherWord, Digits(1)]
    ensures Tokens(ws, shortScale) == ts
  {
    forall i | 0 <= i < 4
      ensures Classify(ws[i], shortScale) == ts[i]
    {
      if i == 0 { ReadThis(shortScale); }
      else if i == 1 { ReadIs(shortScale); }
      else if i == 2 { ReadThe(shortScale); }
      else if i == 3 { Read1st(shortScale); }
    }
    TokensOfReadings(ws, ts, shortScale);
  }

  lemma ExtractThisIsThe1stTestReadings1(ws: seq<string>, ts: seq<Token>, shortScale: bool)
    requires ws == ["test"]
    requires ts == [OtherWord]
    ensures Tokens(ws, shortScale) == ts
  {
    forall i | 0 <= i < 1
      ensures Classify(ws[i], shortScale) == ts[i]
    {
      if i == 0 { ReadTest(shortScale); }
    }
    TokensOfReadings(ws, ts, shortScale);
  }

  lemma ExtractThisIsThe1stTestWordChunks()
    ensures ["this", "is", "the", "1st", "test"] == ["this", "is", "the", "1st"] + ["test"]
  {
  }

  lemma ExtractThisIsThe1stTestTokenChunks(shortScale: bool)
    ensures [OtherWord, OtherWord, OtherWord, Digits(1), OtherWord] == [OtherWord, OtherWord, OtherWord, Digits(1)] + [OtherWord]
  {
  }

  lemma ExtractThisIsThe1stTestReadings(shortScale: bool)
    ensures Tokens(["this", "is", "the", "1st", "test"], shortScale) == [OtherWord, OtherWord, OtherWord, Digits(1), OtherWord]
  {
    var w0, w1 := ["this", "is", "the", "1st"], ["test"];
    var t0, t1 := [OtherWord, OtherWord, OtherWord, Digits(1)], [OtherWord];
    ExtractThisIsThe1stTestReadings0(w0, t0, shortScale);
    ExtractThisIsThe1stTestReadings1(w1, t1, shortScale);
    TokensJoin(w0, w1, t0, t1, shortScale);
    ExtractThisIsThe1stTestWordChunks();
    ExtractThisIsThe1stTestTokenChunks(shortScale);
  }

  lemma ExtractThisIsThe1stTestScan0(ts: seq<Token>)
    requires ts == [OtherWord, OtherWord, OtherWord, Digits(1), OtherWord]
    ensures Scan(ts, None, false) == [1]
  {
    ExtractThisIsThe1stTestScan1(ts[1..]);
  }

  lemma ExtractThisIsThe1stTestScan1(ts: seq<Token>)
    requires ts == [OtherWord, OtherWord, Digits(1), OtherWord]
    ensures Scan(ts, None, false) == [1]
  {
    ExtractThisIsThe1stTestScan2(ts[1..]);
  }

  lemma ExtractThisIsThe1stTestScan2(ts: seq<Token>)
    requires ts == [OtherWord, Digits(1), OtherWord]
    ensures Scan(ts, None, false) == [1]
  {
    ExtractThisIsThe1stTestScan3(ts[1..]);
  }

  lemma ExtractThisIsThe1stTestScan3(ts: seq<Token>)
    requires ts == [Digits(1), OtherWord]
    ensures Scan(ts, None, false) == [1]
  {
    ExtractThisIsThe1stTestScan4(ts[1..]);
  }

  lemma ExtractThisIsThe1stTestScan4(ts: seq<Token>)
    requires ts == [OtherWord]
    ensures Scan(ts, Some(Run(0, 1, Digits(1), false)), false) == [1]
  {
  }

  /** test/test_parse.py:113 */
  lemma ExtractThisIsThe1stTest()
    ensures ExtractNumber("this is the 1st test", true) == Some(1)
  {
    ExtractThisIsThe1stTestWordsUpto5("this is the 1st test");
    ExtractThisIsThe1stTestReadings(true);
    ExtractThisIsThe1stTestScan0([OtherWord, OtherWord, OtherWord, Digits(1), OtherWord]);
  }

  lemma ExtractThisIsThe2ndTestWordsUpto1(s: string)
    requires s == "this"
    ensures Words(Lower(s)) == ["this"]
  {
    LowerWordsSingle(s, "this");
  }

  lemma ExtractThisIsThe2ndTestWordsUpto2(s: string)
    requires s == "this is"
    ensures Words(Lower(s)) == ["this", "is"]
  {
    var p := s[..4];
    LowerWordsNext(s, p, 1, "is", "is");
    ExtractThisIsThe2ndTestWordsUpto1(p);
  }

  lemma ExtractThisIsThe2ndTestWordsUpto3(s: string)
    requires s == "this is the"
    ensures Words(Lower(s)) == ["this", "is", "the"]
  {
    var p := s[..7];
    LowerWordsNext(s, p, 1, "the", "the");
    ExtractThisIsThe2ndTestWordsUpto2(p);
  }

  lemma ExtractThisIsThe2ndTestWordsUpto4(s: string)
    requires s == "this is the 2nd"
    ensures Words(Lower(s)) == ["this", "is", "the", "2nd"]
  {
    var p := s[..11];
    LowerWordsNext(s, p, 1, "2nd", "2nd");
    ExtractThisIsThe2ndTestWordsUpto3(p);
  }

  lemma ExtractThisIsThe2ndTestWordsUpto5(s: string)
    requires s == "this is the 2nd test"
    ensures Words(Lower(s)) == ["this", "is", "the", "2nd", "test"]
  {
    var p := s[..15];
    LowerWordsNext(s, p, 1, "test", "test");
    ExtractThisIsThe2ndTestWordsUpto4(p);
  }

  lemma ExtractThisIsThe2ndTestReadings0(ws: seq<string>, ts: seq<Token>, shortScale: bool)
    requires ws == ["this", "is", "the", "2nd"]
    requires ts == [OtherWord, OtherWord, OtherWord, Digits(2)]
    ensures Tokens(ws, shortScale) == ts
  {
    forall i | 0 <= i < 4
      ensures Classify(ws[i], shortScale) == ts[i]
    {
      if i == 0 { ReadThis(shortScale); }
      else if i == 1 { ReadIs(shortScale); }
      else if i == 2 { ReadThe(shortScale); }
      else if i == 3 { Read2nd(shortScale); }
    }
    TokensOfReadings(ws, ts, shortScale);
  }

  lemma ExtractThisIsThe2ndTestReadings1(ws: seq<string>, ts: seq<Token>, shortScale: bool)
    requires ws == ["test"]
    requires ts == [OtherWord]
    ensures Tokens(ws, shortScale) == ts
  {
    forall i | 0 <= i < 1
      ensures Classify(ws[i], shortScale) == ts[i]
    {
      if i == 0 { ReadTest(shortScale); }
    }
    TokensOfReadings(ws, ts, shortScale);
  }

  lemma ExtractThisIsThe2ndTestWordChunks()
    ensures ["this", "is", "the", "2nd", "test"] == ["this", "is", "the", "2nd"] + ["test"]
  {
  }

  lemma ExtractThisIsThe2ndTestTokenChunks(shortScale: bool)
    ensures [OtherWord, OtherWord, OtherWord, Digits(2), OtherWord] == [OtherWord, OtherWord, OtherWord, Digits(2)] + [OtherWord]
  {
  }

  lemma ExtractThisIsThe2ndTestReadings(shortScale: bool)
    ensures Tokens(["this", "is", "the", "2nd", "test"], shortScale) == [OtherWord, OtherWord, OtherWord, Digits(2), OtherWord]
  {
    var w0, w1 := ["this", "is", "the", "2nd"], ["test"];
    var t0, t1 := [OtherWord, OtherWord, OtherWord, Digits(2)], [OtherWord];
    ExtractThisIsThe2ndTestReadings0(w0, t0, shortScale);
    ExtractThisIsThe2ndTestReadings1(w1, t1, shortScale);
    TokensJoin(w0, w1, t0, t1, shortScale);
    ExtractThisIsThe2ndTestWordChunks();
    ExtractThisIsThe2ndTestTokenChunks(shortScale);
  }

  lemma ExtractThisIsThe2ndTestScan0(ts: seq<Token>)
    requires ts == [OtherWord, OtherWord, OtherWord, Digits(2), OtherWord]
    ensures Scan(ts, None, false) == [2]
  {
    ExtractThisIsThe2ndTestScan1(ts[1..]);
  }

  lemma ExtractThisIsThe2ndTestScan1(ts: seq<Token>)
    requires ts == [OtherWord, OtherWord, Digits(2), OtherWord]
    ensures Scan(ts, None, false) == [2]
  {
    ExtractThisIsThe2ndTestScan2(ts[1..]);
  }

  lemma ExtractThisIsThe2ndTestScan2(ts: seq<Token>)
    requires ts == [OtherWord, Digits(2), OtherWord]
    ensures Scan(ts, None, false) == [2]
  {
    ExtractThisIsThe2ndTestScan3(ts[1..]);
  }

  lemma ExtractThisIsThe2ndTestScan3(ts: seq<Token>)
    requires ts == [Digits(2), OtherWord]
    ensures Scan(ts, None, false) == [2]
  {
    ExtractThisIsThe2ndTestScan4(ts[1..]);
  }

  lemma ExtractThisIsThe2ndTestScan4(ts: seq<Token>)
    requires ts == [OtherWord]
    ensures Scan(ts, Some(Run(0, 2, Digits(2), false)), false) == [2]
  {
  }

  /** test/test_parse.py:114 */
  lemma ExtractThisIsThe2ndTest()
    ensures ExtractNumber("this is the 2nd test", true) == Some(2)
  {
    ExtractThisIsThe2ndTestWordsUpto5("this is the 2nd test");
    ExtractThisIsThe2ndTestReadings(true);
    ExtractThisIsThe2ndTestScan0([OtherWord, OtherWord, OtherWord, Digits(2), OtherWord]);
  }

  lemma ExtractThisIsThe3rdTestWordsUpto1(s: string)
    requires s == "this"
    ensures Words(Lower(s)) == ["this"]
  {
    LowerWordsSingle(s, "this");
  }

  lemma ExtractThisIsThe3rdTestWordsUpto2(s: string)
    requires s == "this is"
    ensures Words(Lower(s)) == ["this", "is"]
  {
    var p := s[..4];
    LowerWordsNext(s, p, 1, "is", "is");
    ExtractThisIsThe3rdTestWordsUpto1(p);
  }

  lemma ExtractThisIsThe3rdTestWordsUpto3(s: string)
    requires s == "this is the"
    ensures Words(Lower(s)) == ["this", "is", "the"]
  {
    var p := s[..7];
    LowerWordsNext(s, p, 1, "the", "the");
    ExtractThisIsThe3rdTestWordsUpto2(p);
  }

  lemma ExtractThisIsThe3rdTestWordsUpto4(s: string)
    requires s == "this is the 3rd"
    ensures Words(Lower(s)) == ["this", "is", "the", "3rd"]
  {
    var p := s[..11];
    LowerWordsNext(s, p, 1, "3rd", "3rd");
    ExtractThisIsThe3rdTestWordsUpto3(p);
  }

  lemma ExtractThisIsThe3rdTestWordsUpto5(s: string)
    requires s == "this is the 3rd test"
    ensures Words(Lower(s)) == ["this", "is", "the", "3rd", "test"]
  {
    var p := s[..15];
    LowerWordsNext(s, p, 1, "test", "test");
    ExtractThisIsThe3rdTestWordsUpto4(p);
  }

  lemma ExtractThisIsThe3rdTestReadings0(ws: seq<string>, ts: seq<Token>, shortScale: bool)
    requires ws == ["this", "is", "the", "3rd"]
    requires ts == [OtherWord, OtherWord, OtherWord, Digits(3)]
    ensures Tokens(ws, shortScale) == ts
  {
    forall i | 0 <= i < 4
      ensures Classify(ws[i], shortScale) == ts[i]
    {
      if i == 0 { ReadThis(shortScale); }
      else if i == 1 { ReadIs(shortScale); }
      else if i == 2 { ReadThe(shortScale); }
      else if i == 3 { Read3rd(shortScale); }
    }
    TokensOfReadings(ws, ts, shortScale);
  }

  lemma ExtractThisIsThe3rdTestReadings1(ws: seq<string>, ts: seq<Token>, shortScale: bool)
    requires ws == ["test"]
    requires ts == [OtherWord]
    ensures Tokens(ws, shortScale) == ts
  {
    forall i | 0 <= i < 1
      ensures Classify(ws[i], shortScale) == ts[i]
    {
      if i == 0 { ReadTest(shortScale); }
    }
    TokensOfReadings(ws, ts, shortScale);
  }

  lemma ExtractThisIsThe3rdTestWordChunks()
    ensures ["this", "is", "the", "3rd", "test"] == ["this", "is", "the", "3rd"] + ["test"]
  {
  }

  lemma ExtractThisIsThe3rdTestTokenChunks(shortScale: bool)
    ensures [OtherWord, OtherWord, OtherWord, Digits(3), OtherWord] == [OtherWord, OtherWord, OtherWord, Digits(3)] + [OtherWord]
  {
  }

  lemma ExtractThisIsThe3rdTestReadings(shortScale: bool)
    ensures Tokens(["this", "is", "the", "3rd", "test"], shortScale) == [OtherWord, OtherWord, OtherWord, Digits(3), OtherWord]
  {
    var w0, w1 := ["this", "is", "the", "3rd"], ["test"];
    var t0, t1 := [OtherWord, OtherWord, OtherWord, Digits(3)], [OtherWord];
    ExtractThisIsThe3rdTestReadings0(w0, t0, shortScale);
    ExtractThisIsThe3rdTestReadings1(w1, t1, shortScale);
    TokensJoin(w0, w1, t0, t1, shortScale);
    ExtractThisIsThe3rdTestWordChunks();
    ExtractThisIsThe3rdTestTokenChunks(shortScale);
  }

  lemma ExtractThisIsThe3rdTestScan0(ts: seq<Token>)
    requires ts == [OtherWord, OtherWord, OtherWord, Digits(3), OtherWord]
    ensures Scan(ts, None, false) == [3]
  {
    ExtractThisIsThe3rdTestScan1(ts[1..]);
  }

  lemma ExtractThisIsThe3rdTestScan1(ts: seq<Token>)
    requires ts == [OtherWord, OtherWord, Digits(3), OtherWord]
    ensures Scan(ts, None, false) == [3]
  {
    ExtractThisIsThe3rdTestScan2(ts[1..]);
  }

  lemma ExtractThisIsThe3rdTestScan2(ts: seq<Token>)
    requires ts == [OtherWord, Digits(3), OtherWord]
    ensures Scan(ts, None, false) == [3]
  {
    ExtractThisIsThe3rdTestScan3(ts[1..]);
  }

  lemma ExtractThisIsThe3rdTestScan3(ts: seq<Token>)
    requires ts == [Digits(3), OtherWord]
    ensures Scan(ts, None, false) == [3]
  {
    ExtractThisIsThe3rdTestScan4(ts[1..]);
  }

  lemma ExtractThisIsThe3rdTestScan4(ts: seq<Token>)
    requires ts == [OtherWord]
    ensures Scan(ts, Some(Run(0, 3, Digits(3), false)), false) == [3]
  {
  }

  /** test/test_parse.py:115 */
  lemma ExtractThisIsThe3rdTest()
    ensures ExtractNumber("this is the 3rd test", true) == Some(3)
  {
    ExtractThisIsThe3rdTestWordsUpto5("this is the 3rd test");
    ExtractThisIsThe3rdTestReadings(true);
    ExtractThisIsThe3rdTestScan0([OtherWord, OtherWord, OtherWord, Digits(3), OtherWord]);
  }

  lemma ExtractThisIsThe31stTestWordsUpto1(s: string)
    requires s == "this"
    ensures Words(Lower(s)) == ["this"]
  {
    LowerWordsSingle(s, "this");
  }

  lemma ExtractThisIsThe31stTestWordsUpto2(s: string)
    requires s == "this is"
    ensures Words(Lower(s)) == ["this", "is"]
  {
    var p := s[..4];
    LowerWordsNext(s, p, 1, "is", "is");
    ExtractThisIsThe31stTestWordsUpto1(p);
  }

  lemma ExtractThisIsThe31stTestWordsUpto3(s: string)
    requires s == "this is the"
    ensures Words(Lower(s)) == ["this", "is", "the"]
  {
    var p := s[..7];
    LowerWordsNext(s, p, 1, "the", "the");
    ExtractThisIsThe31stTestWordsUpto2(p);
  }

  lemma ExtractThisIsThe31stTestWordsUpto4(s: string)
    requires s == "this is the 31st"
    ensures Words(Lower(s)) == ["this", "is", "the", "31st"]
  {
    var p := s[..11];
    LowerWordsNext(s, p, 1, "31st", "31st");
    ExtractThisIsThe31stTestWordsUpto3(p);
  }

  lemma ExtractThisIsThe31stTestWordsUpto5(s: string)
    requires s == "this is the 31st test"
    ensures Words(Lower(s)) == ["this", "is", "the", "31st", "test"]
  {
    var p := s[..16];
    LowerWordsNext(s, p, 1, "test", "test");
    ExtractThisIsThe31stTestWordsUpto4(p);
  }

  lemma ExtractThisIsThe31stTestReadings0(ws: seq<string>, ts: seq<Token>, shortScale: bool)
    requires ws == ["this", "is", "the", "31st"]
    requires ts == [OtherWord, OtherWord, OtherWord, Digits(31)]
    ensures Tokens(ws, shortScale) == ts
  {
    forall i | 0 <= i < 4
      ensures Classify(ws[i], shortScale) == ts[i]
    {
      if i == 0 { ReadThis(shortScale); }
      else if i == 1 { ReadIs(shortScale); }
      else if i == 2 { ReadThe(shortScale); }
      else if i == 3 { Read31st(shortScale); }
    }
    TokensOfReadings(ws, ts, shortScale);
  }

  lemma ExtractThisIsThe31stTestReadings1(ws: seq<string>, ts: seq<Token>, shortScale: bool)
    requires ws == ["test"]
    requires ts == [OtherWord]
    ensures Tokens(ws, shortScale) == ts
  {
    forall i | 0 <= i < 1
      ensures Classify(ws[i], shortScale) == ts[i]
    {
      if i == 0 { ReadTest(shortScale); }
    }
    TokensOfReadings(ws, ts, shortScale);
  }

  lemma ExtractThisIsThe31stTestWordChunks()
    ensures ["this", "is", "the", "31st", "test"] == ["this", "is", "the", "31st"] + ["test"]
  {
  }

  lemma ExtractThisIsThe31stTestTokenChunks(shortScale: bool)
    ensures [OtherWord, OtherWord, OtherWord, Digits(31), OtherWord] == [OtherWord, OtherWord, OtherWord, Digits(31)] + [OtherWord]
  {
  }

  lemma ExtractThisIsThe31stTestReadings(shortScale: bool)
    ensures Tokens(["this", "is", "the", "31st", "test"], shortScale) == [OtherWord, OtherWord, OtherWord, Digits(31), OtherWord]
  {
    var w0, w1 := ["this", "is", "the", "31st"], ["test"];
    var t0, t1 := [OtherWord, OtherWord, OtherWord, Digits(31)], [OtherWord];
    ExtractThisIsThe31stTestReadings0(w0, t0, shortScale);
    ExtractThisIsThe31stTestReadings1(w1, t1, shortScale);
    TokensJoin(w0, w1, t0, t1, shortScale);
    ExtractThisIsThe31stTestWordChunks();
    ExtractThisIsThe31stTestTokenChunks(shortScale);
  }

  lemma ExtractThisIsThe31stTestScan0(ts: seq<Token>)
    requires ts == [OtherWord, OtherWord, OtherWord, Digits(31), OtherWord]
    ensures Scan(ts, None, false) == [31]
  {
    ExtractThisIsThe31stTestScan1(ts[1..]);
  }

  lemma ExtractThisIsThe31stTestScan1(ts: seq<Token>)
    requires ts == [OtherWord, OtherWord, Digits(31), OtherWord]
    ensures Scan(ts, None, false) == [31]
  {
    ExtractThisIsThe31stTestScan2(ts[1..]);
  }

  lemma ExtractThisIsThe31stTestScan2(ts: seq<Token>)
    requires ts == [OtherWord, Digits(31), OtherWord]
    ensures Scan(ts, None, false) == [31]
  {
    ExtractThisIsThe31stTestScan3(ts[1..]);
  }

  lemma ExtractThisIsThe31stTestScan3(ts: seq<Token>)
    requires ts == [Digits(31), OtherWord]
    ensures Scan(ts, None, false) == [31]
  {
    ExtractThisIsThe31stTestScan4(ts[1..]);
  }

  lemma ExtractThisIsThe31stTestScan4(ts: seq<Token>)
    requires ts == [OtherWord]
    ensures Scan(ts, Some(Run(0, 31, Digits(31), false)), false) == [31]
  {
  }

  /** test/test_parse.py:116 */
  lemma ExtractThisIsThe31stTest()
    ensures ExtractNumber("this is the 31st test", true) == Some(31)
  {
    ExtractThisIsThe31stTestWordsUpto5("this is the 31st test");
    ExtractThisIsThe31stTestReadings(true);
    ExtractThisIsThe31stTestScan0([OtherWord, OtherWord, OtherWord, Digits(31), OtherWord]);
  }

  lemma ExtractThisIsThe32ndTestWordsUpto1(s: string)
    requires s == "this"
    ensures Words(Lower(s)) == ["this"]
  {
    LowerWordsSingle(s, "this");
  }

  lemma ExtractThisIsThe32ndTestWordsUpto2(s: string)
    requires s == "this is"
    ensures Words(Lower(s)) == ["this", "is"]
  {
    var p := s[..4];
    LowerWordsNext(s, p, 1, "is", "is");
    ExtractThisIsThe32ndTestWordsUpto1(p);
  }

  lemma ExtractThisIsThe32ndTestWordsUpto3(s: string)
    requires s == "this is the"
    ensures Words(Lower(s)) == ["this", "is", "the"]
  {
    var p := s[..7];
    LowerWordsNext(s, p, 1, "the", "the");
    ExtractThisIsThe32ndTestWordsUpto2(p);
  }

  lemma ExtractThisIsThe32ndTestWordsUpto4(s: string)
    requires s == "this is the 32nd"
    ensures Words(Lower(s)) == ["this", "is", "the", "32nd"]
  {
    var p := s[..11];
    LowerWordsNext(s, p, 1, "32nd", "32nd");
    ExtractThisIsThe32ndTestWordsUpto3(p);
  }

  lemma ExtractThisIsThe32ndTestWordsUpto5(s: string)
    requires s == "this is the 32nd test"
    ensures Words(Lower(s)) == ["this", "is", "the", "32nd", "test"]
  {
    var p := s[..16];
    LowerWordsNext(s, p, 1, "test", "test");
    ExtractThisIsThe32ndTestWordsUpto4(p);
  }

  lemma ExtractThisIsThe32ndTestReadings0(ws: seq<string>, ts: seq<Token>, shortScale: bool)
    requires ws == ["this", "is", "the", "32nd"]
    requires ts == [OtherWord, OtherWord, OtherWord, Digits(32)]
    ensures Tokens(ws, shortScale) == ts
  {
    forall i | 0 <= i < 4
      ensures Classify(ws[i], shortScale) == ts[i]
    {
      if i == 0 { ReadThis(shortScale); }
      else if i == 1 { ReadIs(shortScale); }
      else if i == 2 { ReadThe(shortScale); }
      else if i == 3 { Read32nd(shortScale); }
    }
    TokensOfReadings(ws, ts, shortScale);
  }

  lemma ExtractThisIsThe32ndTestReadings1(ws: seq<string>, ts: seq<Token>, shortScale: bool)
    requires ws == ["test"]
    requires ts == [OtherWord]
    ensures Tokens(ws, shortScale) == ts
  {
    forall i | 0 <= i < 1
      ensures Classify(ws[i], shortScale) == ts[i]
    {
      if i == 0 { ReadTest(shortScale); }
    }
    TokensOfReadings(ws, ts, shortScale);
  }

  lemma ExtractThisIsThe32ndTestWordChunks()
    ensures ["this", "is", "the", "32nd", "test"] == ["this", "is", "the", "32nd"] + ["test"]
  {
  }

  lemma ExtractThisIsThe32ndTestTokenChunks(shortScale: bool)
    ensures [OtherWord, OtherWord, OtherWord, Digits(32), OtherWord] == [OtherWord, OtherWord, OtherWord, Digits(32)] + [OtherWord]
  {
  }

  lemma ExtractThisIsThe32ndTestReadings(shortScale: bool)
    ensures Tokens(["this", "is", "the", "32nd", "test"], shortScale) == [OtherWord, OtherWord, OtherWord, Digits(32), OtherWord]
  {
    var w0, w1 := ["this", "is", "the", "32nd"], ["test"];
    var t0, t1 := [OtherWord, OtherWord, OtherWord, Digits(32)], [OtherWord];
    ExtractThisIsThe32ndTestReadings0(w0, t0, shortScale);
    ExtractThisIsThe32ndTestReadings1(w1, t1, shortScale);
    TokensJoin(w0, w1, t0, t1, shortScale);
    ExtractThisIsThe32ndTestWordChunks();
    ExtractThisIsThe32ndTestTokenChunks(shortScale);
  }

  lemma ExtractThisIsThe32ndTestScan0(ts: seq<Token>)
    requires ts == [OtherWord, OtherWord, OtherWord, Digits(32), OtherWord]
    ensures Scan(ts, None, false) == [32]
  {
    ExtractThisIsThe32ndTestScan1(ts[1..]);
  }

  lemma ExtractThisIsThe32ndTestScan1(ts: seq<Token>)
    requires ts == [OtherWord, OtherWord, Digits(32), OtherWord]
    ensures Scan(ts, None, false) == [32]
  {
    ExtractThisIsThe32ndTestScan2(ts[1..]);
  }

  lemma ExtractThisIsThe32ndTestScan2(ts: seq<Token>)
    requires ts == [OtherWord, Digits(32), OtherWord]
    ensures Scan(ts, None, false) == [32]
  {
    ExtractThisIsThe32ndTestScan3(ts[1..]);
  }

  lemma ExtractThisIsThe32ndTestScan3(ts: seq<Token>)
    requires ts == [Digits(32), OtherWord]
    ensures Scan(ts, None, false) == [32]
  {
    ExtractThisIsThe32ndTestScan4(ts[1..]);
  }

  lemma ExtractThisIsThe32ndTestScan4(ts: seq<Token>)
    requires ts == [OtherWord]
    ensures Scan(ts, Some(Run(0, 32, Digits(32), false)), false) == [32]
  {
  }

  /** test/test_parse.py:117 */
  lemma ExtractThisIsThe32ndTest()
    ensures ExtractNumber("this is the 32nd test", true) == Some(32)
  {
    ExtractThisIsThe32ndTestWordsUpto5("this is the 32nd test");
    ExtractThisIsThe32ndTestReadings(true);
    ExtractThisIsThe32ndTestScan0([OtherWord, OtherWord, OtherWord, Digits(32), OtherWord]);
  }

  lemma ExtractThisIsThe33rdTestWordsUpto1(s: string)
    requires s == "this"
    ensures Words(Lower(s)) == ["this"]
  {
    LowerWordsSingle(s, "this");
  }

  lemma ExtractThisIsThe33rdTestWordsUpto2(s: string)
    requires s == "this is"
    ensures Words(Lower(s)) == ["this", "is"]
  {
    var p := s[..4];
    LowerWordsNext(s, p, 1, "is", "is");
    ExtractThisIsThe33rdTestWordsUpto1(p);
  }

  lemma ExtractThisIsThe33rdTestWordsUpto3(s: string)
    requires s == "this is the"
    ensures Words(Lower(s)) == ["this", "is", "the"]
  {
    var p := s[..7];
    LowerWordsNext(s, p, 1, "the", "the");
    ExtractThisIsThe33rdTestWordsUpto2(p);
  }

  lemma ExtractThisIsThe33rdTestWordsUpto4(s: string)
    requires s == "this is the 33rd"
    ensures Words(Lower(s)) == ["this", "is", "the", "33rd"]
  {
    var p := s[..11];
    LowerWordsNext(s, p, 1, "33rd", "33rd");
    ExtractThisIsThe33rdTestWordsUpto3(p);
  }

  lemma ExtractThisIsThe33rdTestWordsUpto5(s: string)
    requires s == "this is the 33rd test"
    ensures Words(Lower(s)) == ["this", "is", "the", "33rd", "test"]
  {
    var p := s[..16];
    LowerWordsNext(s, p, 1, "test", "test");
    ExtractThisIsThe33rdTestWordsUpto4(p);
  }

  lemma ExtractThisIsThe33rdTestReadings0(ws: seq<string>, ts: seq<Token>, shortScale: bool)
    requires ws == ["this", "is", "the", "33rd"]
    requires ts == [OtherWord, OtherWord, OtherWord, Digits(33)]
    ensures Tokens(ws, shortScale) == ts
  {
    forall i | 0 <= i < 4
      ensures Classify(ws[i], shortScale) == ts[i]
    {
      if i == 0 { ReadThis(shortScale); }
      else if i == 1 { ReadIs(shortScale); }
      else if i == 2 { ReadThe(shortScale); }
      else if i == 3 { Read33rd(shortScale); }
    }
    TokensOfReadings(ws, ts, shortScale);
  }

  lemma ExtractThisIsThe33rdTestReadings1(ws: seq<string>, ts: seq<Token>, shortScale: bool)
    requires ws == ["test"]
    requires ts == [OtherWord]
    ensures Tokens(ws, shortScale) == ts
  {
    forall i | 0 <= i < 1
      ensures Classify(ws[i], shortScale) == ts[i]
    {
      if i == 0 { ReadTest(shortScale); }
    }
    TokensOfReadings(ws, ts, shortScale);
  }

  lemma ExtractThisIsThe33rdTestWordChunks()
    ensures ["this", "is", "the", "33rd", "test"] == ["this", "is", "the", "33rd"] + ["test"]
  {
  }

  lemma ExtractThisIsThe33rdTestTokenChunks(shortScale: bool)
    ensures [OtherWord, OtherWord, OtherWord, Digits(33), OtherWord] == [OtherWord, OtherWord, OtherWord, Digits(33)] + [OtherWord]
  {
  }

  lemma ExtractThisIsThe33rdTestReadings(shortScale: bool)
    ensures Tokens(["this", "is", "the", "33rd", "test"], shortScale) == [OtherWord, OtherWord, OtherWord, Digits(33), OtherWord]
  {
    var w0, w1 := ["this", "is", "the", "33rd"], ["test"];
    var t0, t1 := [OtherWord, OtherWord, OtherWord, Digits(33)], [OtherWord];
    ExtractThisIsThe33rdTestReadings0(w0, t0, shortScale);
    ExtractThisIsThe33rdTestReadings1(w1, t1, shortScale);
    TokensJoin(w0, w1, t0, t1, shortScale);
    ExtractThisIsThe33rdTestWordChunks();
    ExtractThisIsThe33rdTestTokenChunks(shortScale);
  }

  lemma ExtractThisIsThe33rdTestScan0(ts: seq<Token>)
    requires ts == [OtherWord, OtherWord, OtherWord, Digits(33), OtherWord]
    ensures Scan(ts, None, false) == [33]
  {
    ExtractThisIsThe33rdTestScan1(ts[1..]);
  }

  lemma ExtractThisIsThe33rdTestScan1(ts: seq<Token>)
    requires ts == [OtherWord, OtherWord, Digits(33), OtherWord]
    ensures Scan(ts, None, false) == [33]
  {
    ExtractThisIsThe33rdTestScan2(ts[1..]);
  }

  lemma ExtractThisIsThe33rdTestScan2(ts: seq<Token>)
    requires ts == [OtherWord, Digits(33), OtherWord]
    ensures Scan(ts, None, false) == [33]
  {
    ExtractThisIsThe33rdTestScan3(ts[1..]);
  }

  lemma ExtractThisIsThe33rdTestScan3(ts: seq<Token>)
    requires ts == [Digits(33), OtherWord]
    ensures Scan(ts, None, false) == [33]
  {
    ExtractThisIsThe33rdTestScan4(ts[1..]);
  }

  lemma ExtractThisIsThe33rdTestScan4(ts: seq<Token>)
    requires ts == [OtherWord]
    ensures Scan(ts, Some(Run(0, 33, Digits(33), false)), false) == [33]
  {
  }

  /** test/test_parse.py:118 */
  lemma ExtractThisIsThe33rdTest()
    ensures ExtractNumber("this is the 33rd test", true) == Some(33)
  {
    ExtractThisIsThe33rdTestWordsUpto5("this is the 33rd test");
    ExtractThisIsThe33rdTestReadings(true);
    ExtractThisIsThe33rdTestScan0([OtherWord, OtherWord, OtherWord, Digits(33), OtherWord]);
  }

  lemma ExtractThisIsThe34thTestWordsUpto1(s: string)
    requires s == "this"
    ensures Words(Lower(s)) == ["this"]
  {
    LowerWordsSingle(s, "this");
  }

  lemma ExtractThisIsThe34thTestWordsUpto2(s: string)
    requires s == "this is"
    ensures Words(Lower(s)) == ["this", "is"]
  {
    var p := s[..4];
    LowerWordsNext(s, p, 1, "is", "is");
    ExtractThisIsThe34thTestWordsUpto1(p);
  }

  lemma ExtractThisIsThe34thTestWordsUpto3(s: string)
    requires s == "this is the"
    ensures Words(Lower(s)) == ["this", "is", "the"]
  {
    var p := s[..7];
    LowerWordsNext(s, p, 1, "the", "the");
    ExtractThisIsThe34thTestWordsUpto2(p);
  }

  lemma ExtractThisIsThe34thTestWordsUpto4(s: string)
    requires s == "this is the 34th"
    ensures Words(Lower(s)) == ["this", "is", "the", "34th"]
  {
    var p := s[..11];
    LowerWordsNext(s, p, 1, "34th", "34th");
    ExtractThisIsThe34thTestWordsUpto3(p);
  }

  lemma ExtractThisIsThe34thTestWordsUpto5(s: string)
    requires s == "this is the 34th test"
    ensures Words(Lower(s)) == ["this", "is", "the", "34th", "test"]
  {
    var p := s[..16];
    LowerWordsNext(s, p, 1, "test", "test");
    ExtractThisIsThe34thTestWordsUpto4(p);
  }

  lemma ExtractThisIsThe34thTestReadings0(ws: seq<string>, ts: seq<Token>, shortScale: bool)
    requires ws == ["this", "is", "the", "34th"]
    requires ts == [OtherWord, OtherWord, OtherWord, Digits(34)]
    ensures Tokens(ws, shortScale) == ts
  {
    forall i | 0 <= i < 4
      ensures Classify(ws[i], shortScale) == ts[i]
    {
      if i == 0 { ReadThis(shortScale); }
      else if i == 1 { ReadIs(shortScale); }
      else if i == 2 { ReadThe(shortScale); }
      else if i == 3 { Read34th(shortScale); }
    }
    TokensOfReadings(ws, ts, shortScale);
  }

  lemma ExtractThisIsThe34thTestReadings1(ws: seq<string>, ts: seq<Token>, shortScale: bool)
    requires ws == ["test"]
    requires ts == [OtherWord]
    ensures Tokens(ws, shortScale) == ts
  {
    forall i | 0 <= i < 1
      ensures Classify(ws[i], shortScale) == ts[i]
    {
      if i == 0 { ReadTest(shortScale); }
    }
    TokensOfReadings(ws, ts, shortScale);
  }

  lemma ExtractThisIsThe34thTestWordChunks()
    ensures ["this", "is", "the", "34th", "test"] == ["this", "is", "the", "34th"] + ["test"]
  {
  }

  lemma ExtractThisIsThe34thTestTokenChunks(shortScale: bool)
    ensures [OtherWord, OtherWord, OtherWord, Digits(34), OtherWord] == [OtherWord, OtherWord, OtherWord, Digits(34)] + [OtherWord]
  {
  }

  lemma ExtractThisIsThe34thTestReadings(shortScale: bool)
    ensures Tokens(["this", "is", "the", "34th", "test"], shortScale) == [OtherWord, OtherWord, OtherWord, Digits(34), OtherWord]
  {
    var w0, w1 := ["this", "is", "the", "34th"], ["test"];
    var t0, t1 := [OtherWord, OtherWord, OtherWord, Digits(34)], [OtherWord];
    ExtractThisIsThe34thTestReadings0(w0, t0, shortScale);
    ExtractThisIsThe34thTestReadings1(w1, t1, shortScale);
    TokensJoin(w0, w1, t0, t1, shortScale);
    ExtractThisIsThe34thTestWordChunks();
    ExtractThisIsThe34thTestTokenChunks(shortScale);
  }

  lemma ExtractThisIsThe34thTestScan0(ts: seq<Token>)
    requires ts == [OtherWord, OtherWord, OtherWord, Digits(34), OtherWord]
    ensures Scan(ts, None, false) == [34]
  {
    ExtractThisIsThe34thTestScan1(ts[1..]);
  }

  lemma ExtractThisIsThe34thTestScan1(ts: seq<Token>)
    requires ts == [OtherWord, OtherWord, Digits(34), OtherWord]
    ensures Scan(ts, None, false) == [34]
  {
    ExtractThisIsThe34thTestScan2(ts[1..]);
  }

  lemma ExtractThisIsThe34thTestScan2(ts: seq<Token>)
    requires ts == [OtherWord, Digits(34), OtherWord]
    ensures Scan(ts, None, false) == [34]
  {
    ExtractThisIsThe34thTestScan3(ts[1..]);
  }

  lemma ExtractThisIsThe34thTestScan3(ts: seq<Token>)
    requires ts == [Digits(34), OtherWord]
    ensures Scan(ts, None, false) == [34]
  {
    ExtractThisIsThe34thTestScan4(ts[1..]);
  }

  lemma ExtractThisIsThe34thTestScan4(ts: seq<Token>)
    requires ts == [OtherWord]
    ensures Scan(ts, Some(Run(0, 34, Digits(34), false)), false) == [34]
  {
  }

  /** test/test_parse.py:119 */
  lemma ExtractThisIsThe34thTest()
    ensures ExtractNumber("this is the 34th test", true) == Some(34)
  {
    ExtractThisIsThe34thTestWordsUpto5("this is the 34th test");
    ExtractThisIsThe34thTestReadings(true);
    ExtractThisIsThe34thTestScan0([OtherWord, OtherWord, OtherWord, Digits(34), OtherWord]);
  }

  lemma ExtractThisIsTheFirstTestWordsUpto1(s: string)
    requires s == "this"
    ensures Words(Lower(s)) == ["this"]
  {
    LowerWordsSingle(s, "this");
  }

  lemma ExtractThisIsTheFirstTestWordsUpto2(s: string)
    requires s == "this is"
    ensures Words(Lower(s)) == ["this", "is"]
  {
    var p := s[..4];
    LowerWordsNext(s, p, 1, "is", "is");
    ExtractThisIsTheFirstTestWordsUpto1(p);
  }

  lemma ExtractThisIsTheFirstTestWordsUpto3(s: string)
    requires s == "this is the"
    ensures Words(Lower(s)) == ["this", "is", "the"]
  {
    var p := s[..7];
    LowerWordsNext(s, p, 1, "the", "the");
    ExtractThisIsTheFirstTestWordsUpto2(p);
  }

  lemma ExtractThisIsTheFirstTestWordsUpto4(s: string)
    requires s == "this is the first"
    ensures Words(Lower(s)) == ["this", "is", "the", "first"]
  {
    var p := s[..11];
    LowerWordsNext(s, p, 1, "first", "first");
    ExtractThisIsTheFirstTestWordsUpto3(p);
  }

  lemma ExtractThisIsTheFirstTestWordsUpto5(s: string)
    requires s == "this is the first test"
    ensures Words(Lower(s)) == ["this", "is", "the", "first", "test"]
  {
    var p := s[..17];
    LowerWordsNext(s, p, 1, "test", "test");
    ExtractThisIsTheFirstTestWordsUpto4(p);
  }

  lemma ExtractThisIsTheFirstTestReadings0(ws: seq<string>, ts: seq<Token>, shortScale: bool)
    requires ws == ["this", "is", "the", "first"]
    requires ts == [OtherWord, OtherWord, OtherWord, OtherWord]
    ensures Tokens(ws, shortScale) == ts
  {
    forall i | 0 <= i < 4
      ensures Classify(ws[i], shortScale) == ts[i]
    {
      if i == 0 { ReadThis(shortScale); }
      else if i == 1 { ReadIs(shortScale); }
      else if i == 2 { ReadThe(shortScale); }
      else if i == 3 { ReadFirst(shortScale); }
    }
    TokensOfReadings(ws, ts, shortScale);
  }

  lemma ExtractThisIsTheFirstTestReadings1(ws: seq<string>, ts: seq<Token>, shortScale: bool)
    requires ws == ["test"]
    requires ts == [OtherWord]
    ensures Tokens(ws, shortScale) == ts
  {
    forall i | 0 <= i < 1
      ensures Classify(ws[i], shortScale) == ts[i]
    {
      if i == 0 { ReadTest(shortScale); }
    }
    TokensOfReadings(ws, ts, shortScale);
  }

  lemma ExtractThisIsTheFirstTestWordChunks()
    ensures ["this", "is", "the", "first", "test"] == ["this", "is", "the", "first"] + ["test"]
  {
  }

  lemma ExtractThisIsTheFirstTestTokenChunks(shortScale: bool)
    ensures [OtherWord, OtherWord, OtherWord, OtherWord, OtherWord] == [OtherWord, OtherWord, OtherWord, OtherWord] + [OtherWord]
  {
  }

  lemma ExtractThisIsTheFirstTestReadings(shortScale: bool)
    ensures Tokens(["this", "is", "the", "first", "test"], shortScale) == [OtherWord, OtherWord, OtherWord, OtherWord, OtherWord]
  {
    var w0, w1 := ["this", "is", "the", "first"], ["test"];
    var t0, t1 := [OtherWord, OtherWord, OtherWord, OtherWord], [OtherWord];
    ExtractThisIsTheFirstTestReadings0(w0, t0, shortScale);
    ExtractThisIsTheFirstTestReadings1(w1, t1, shortScale);
    TokensJoin(w0, w1, t0, t1, shortScale);
    ExtractThisIsTheFirstTestWordChunks();
    ExtractThisIsTheFirstTestTokenChunks(shortScale);
  }

  lemma ExtractThisIsTheFirstTestScan0(ts: seq<Token>)
    requires ts == [OtherWord, OtherWord, OtherWord, OtherWord, OtherWord]
    ensures Scan(ts, None, false) == []
  {
    ExtractThisIsTheFirstTestScan1(ts[1..]);
  }

  lemma ExtractThisIsTheFirstTestScan1(ts: seq<Token>)
    requires ts == [OtherWord, OtherWord, OtherWord, OtherWord]
    ensures Scan(ts, None, false) == []
  {
    ExtractThisIsTheFirstTestScan2(ts[1..]);
  }

  lemma ExtractThisIsTheFirstTestScan2(ts: seq<Token>)
    requires ts == [OtherWord, OtherWord, OtherWord]
    ensures Scan(ts, None, false) == []
  {
    ExtractThisIsTheFirstTestScan3(ts[1..]);
  }

  lemma ExtractThisIsTheFirstTestScan3(ts: seq<Token>)
    requires ts == [OtherWord, OtherWord]
    ensures Scan(ts, None, false) == []
  {
    ExtractThisIsTheFirstTestScan4(ts[1..]);
  }

  lemma ExtractThisIsTheFirstTestScan4(ts: seq<Token>)
    requires ts == [OtherWord]
    ensures Scan(ts, None, false) == []
  {
  }

  /** test/test_parse.py:124-127 */
  lemma ExtractThisIsTheFirstTest()
    ensures ExtractNumber("this is the first test", true) == None
  {
    ExtractThisIsTheFirstTestWordsUpto5("this is the first test");
    ExtractThisIsTheFirstTestReadings(true);
    ExtractThisIsTheFirstTestScan0([OtherWord, OtherWord, OtherWord, OtherWord, OtherWord]);
  }

  lemma ExtractThisIsSecondTestWordsUpto1(s: string)
    requires s == "this"
    ensures Words(Lower(s)) == ["this"]
  {
    LowerWordsSingle(s, "this");
  }

  lemma ExtractThisIsSecondTestWordsUpto2(s: string)
    requires s == "this is"
    ensures Words(Lower(s)) == ["this", "is"]
  {
    var p := s[..4];
    LowerWordsNext(s, p, 1, "is", "is");
    ExtractThisIsSecondTestWordsUpto1(p);
  }

  lemma ExtractThisIsSecondTestWordsUpto3(s: string)
    requires s == "this is second"
    ensures Words(Lower(s)) == ["this", "is", "second"]
  {
    var p := s[..7];
    LowerWordsNext(s, p, 1, "second", "second");
    ExtractThisIsSecondTestWordsUpto2(p);
  }

  lemma ExtractThisIsSecondTestWordsUpto4(s: string)
    requires s == "this is second test"
    ensures Words(Lower(s)) == ["this", "is", "second", "test"]
  {
    var p := s[..14];
    LowerWordsNext(s, p, 1, "test", "test");
    ExtractThisIsSecondTestWordsUpto3(p);
  }

  lemma ExtractThisIsSecondTestReadings0(ws: seq<string>, ts: seq<Token>, shortScale: bool)
    requires ws == ["this", "is", "second", "test"]
    requires ts == [OtherWord, OtherWord, OtherWord, OtherWord]
    ensures Tokens(ws, shortScale) == ts
  {
    forall i | 0 <= i < 4
      ensures Classify(ws[i], shortScale) == ts[i]
    {
      if i == 0 { ReadThis(shortScale); }
      else if i == 1 { ReadIs(shortScale); }
      else if i == 2 { ReadSecond(shortScale); }
      else if i == 3 { ReadTest(shortScale); }
    }
    TokensOfReadings(ws, ts, shortScale);
  }

  lemma ExtractThisIsSecondTestReadings(shortScale: bool)
    ensures Tokens(["this", "is", "second", "test"], shortScale) == [OtherWord, OtherWord, OtherWord, OtherWord]
  {
    ExtractThisIsSecondTestReadings0(["this", "is", "second", "test"], [OtherWord, OtherWord, OtherWord, OtherWord], shortScale);
  }

  lemma ExtractThisIsSecondTestScan0(ts: seq<Token>)
    requires ts == [OtherWord, OtherWord, OtherWord, OtherWord]
    ensures Scan(ts, None, false) == []
  {
    ExtractThisIsSecondTestScan1(ts[1..]);
  }

  lemma ExtractThisIsSecondTestScan1(ts: seq<Token>)
    requires ts == [OtherWord, OtherWord, OtherWord]
    ensures Scan(ts, None, false) == []
  {
    ExtractThisIsSecondTestScan2(ts[1..]);
  }

  lemma ExtractThisIsSecondTestScan2(ts: seq<Token>)
    requires ts == [OtherWord, OtherWord]
    ensures Scan(ts, None, false) == []
  {
    ExtractThisIsSecondTestScan3(ts[1..]);
  }

  lemma ExtractThisIsSecondTestScan3(ts: seq<Token>)
    requires ts == [OtherWord]
    ensures Scan(ts, None, false) == []
  {
  }

  /** test/test_parse.py:132-133 */
  lemma ExtractThisIsSecondTest()
    ensures ExtractNumber("this is second test", true) == None
  {
    ExtractThisIsSecondTestWordsUpto4("this is second test");
    ExtractThisIsSecondTestReadings(true);
    ExtractThisIsSecondTestScan0([OtherWord, OtherWord, OtherWord, OtherWord]);
  }

  lemma ExtractRemindMeInASecondWordsUpto1(s: string)
    requires s == "remind"
    ensures Words(Lower(s)) == ["remind"]
  {
    LowerWordsSingle(s, "remind");
  }

  lemma ExtractRemindMeInASecondWordsUpto2(s: string)
    requires s == "remind me"
    ensures Words(Lower(s)) == ["remind", "me"]
  {
    var p := s[..6];
    LowerWordsNext(s, p, 1, "me", "me");
    ExtractRemindMeInASecondWordsUpto1(p);
  }

  lemma ExtractRemindMeInASecondWordsUpto3(s: string)
    requires s == "remind me in"
    ensures Words(Lower(s)) == ["remind", "me", "in"]
  {
    var p := s[..9];
    LowerWordsNext(s, p, 1, "in", "in");
    ExtractRemindMeInASecondWordsUpto2(p);
  }

  lemma ExtractRemindMeInASecondWordsUpto4(s: string)
    requires s == "remind me in a"
    ensures Words(Lower(s)) == ["remind", "me", "in", "a"]
  {
    var p := s[..12];
    LowerWordsNext(s, p, 1, "a", "a");
    ExtractRemindMeInASecondWordsUpto3(p);
  }

  lemma ExtractRemindMeInASecondWordsUpto5(s: string)
    requires s == "remind me in a second"
    ensures Words(Lower(s)) == ["remind", "me", "in", "a", "second"]
  {
    var p := s[..14];
    LowerWordsNext(s, p, 1, "second", "second");
    ExtractRemindMeInASecondWordsUpto4(p);
  }

  lemma ExtractRemindMeInASecondReadings0(ws: seq<string>, ts: seq<Token>, shortScale: bool)
    requires ws == ["remind", "me", "in", "a"]
    requires ts == [OtherWord, OtherWord, OtherWord, OtherWord]
    ensures Tokens(ws, shortScale) == ts
  {
    forall i | 0 <= i < 4
      ensures Classify(ws[i], shortScale) == ts[i]
    {
      if i == 0 { ReadRemind(shortScale); }
      else if i == 1 { ReadMe(shortScale); }
      else if i == 2 { ReadIn(shortScale); }
      else if i == 3 { ReadA(shortScale); }
    }
    TokensOfReadings(ws, ts, shortScale);
  }

  lemma ExtractRemindMeInASecondReadings1(ws: seq<string>, ts: seq<Token>, shortScale: bool)
    requires ws == ["second"]
    requires ts == [OtherWord]
    ensures Tokens(ws, shortScale) == ts
  {
    forall i | 0 <= i < 1
      ensures Classify(ws[i], shortScale) == ts[i]
    {
      if i == 0 { ReadSecond(shortScale); }
    }
    TokensOfReadings(ws, ts, shortScale);
  }

  lemma ExtractRemindMeInASecondWordChunks()
    ensures ["remind", "me", "in", "a", "second"] == ["remind", "me", "in", "a"] + ["second"]
  {
  }

  lemma ExtractRemindMeInASecondTokenChunks(shortScale: bool)
    ensures [OtherWord, OtherWord, OtherWord, OtherWord, OtherWord] == [OtherWord, OtherWord, OtherWord, OtherWord] + [OtherWord]
  {
  }

  lemma ExtractRemindMeInASecondReadings(shortScale: bool)
    ensures Tokens(["remind", "me", "in", "a", "second"], shortScale) == [OtherWord, OtherWord, OtherWord, OtherWord, OtherWord]
  {
    var w0, w1 := ["remind", "me", "in", "a"], ["second"];
    var t0, t1 := [OtherWord, OtherWord, OtherWord, OtherWord], [OtherWord];
    ExtractRemindMeInASecondReadings0(w0, t0, shortScale);
    ExtractRemindMeInASecondReadings1(w1, t1, shortScale);
    TokensJoin(w0, w1, t0, t1, shortScale);
    ExtractRemindMeInASecondWordChunks();
    ExtractRemindMeInASecondTokenChunks(shortScale);
  }

  lemma ExtractRemindMeInASecondScan0(ts: seq<Token>)
    requires ts == [OtherWord, OtherWord, OtherWord, OtherWord, OtherWord]
    ensures Scan(ts, None, false) == []
  {
    ExtractRemindMeInASecondScan1(ts[1..]);
  }

  lemma ExtractRemindMeInASecondScan1(ts: seq<Token>)
    requires ts == [OtherWord, OtherWord, OtherWord, OtherWord]
    ensures Scan(ts, None, false) == []
  {
    ExtractRemindMeInASecondScan2(ts[1..]);
  }

  lemma ExtractRemindMeInASecondScan2(ts: seq<Token>)
    requires ts == [OtherWord, OtherWord, OtherWord]
    ensures Scan(ts, None, false) == []
  {
    ExtractRemindMeInASecondScan3(ts[1..]);
  }

  lemma ExtractRemindMeInASecondScan3(ts: seq<Token>)
    requires ts == [OtherWord, OtherWord]
    ensures Scan(ts, None, false) == []
  {
    ExtractRemindMeInASecondScan4(ts[1..]);
  }

  lemma ExtractRemindMeInASecondScan4(ts: seq<Token>)
    requires ts == [OtherWord]
    ensures Scan(ts, None, false) == []
  {
  }

  /** test/test_parse.py:136-139 */
  lemma ExtractRemindMeInASecond()
    ensures ExtractNumber("remind me in a second", true) == None
  {
    ExtractRemindMeInASecondWordsUpto5("remind me in a second");
    ExtractRemindMeInASecondReadings(true);
    ExtractRemindMeInASecondScan0([OtherWord, OtherWord, OtherWord, OtherWord, OtherWord]);
  }

  lemma ExtractThisIsTheThirdTestWordsUpto1(s: string)
    requires s == "this"
    ensures Words(Lower(s)) == ["this"]
  {
    LowerWordsSingle(s, "this");
  }

  lemma ExtractThisIsTheThirdTestWordsUpto2(s: string)
    requires s == "this is"
    ensures Words(Lower(s)) == ["this", "is"]
  {
    var p := s[..4];
    LowerWordsNext(s, p, 1, "is", "is");
    ExtractThisIsTheThirdTestWordsUpto1(p);
  }

  lemma ExtractThisIsTheThirdTestWordsUpto3(s: string)
    requires s == "this is the"
    ensures Words(Lower(s)) == ["this", "is", "the"]
  {
    var p := s[..7];
    LowerWordsNext(s, p, 1, "the", "the");
    ExtractThisIsTheThirdTestWordsUpto2(p);
  }

  lemma ExtractThisIsTheThirdTestWordsUpto4(s: string)
    requires s == "this is the third"
    ensures Words(Lower(s)) == ["this", "is", "the", "third"]
  {
    var p := s[..11];
    LowerWordsNext(s, p, 1, "third", "third");
    ExtractThisIsTheThirdTestWordsUpto3(p);
  }

  lemma ExtractThisIsTheThirdTestWordsUpto5(s: string)
    requires s == "this is the third test"
    ensures Words(Lower(s)) == ["this", "is", "the", "third", "test"]
  {
    var p := s[..17];
    LowerWordsNext(s, p, 1, "test", "test");
    ExtractThisIsTheThirdTestWordsUpto4(p);
  }

  lemma ExtractThisIsTheThirdTestReadings0(ws: seq<string>, ts: seq<Token>, shortScale: bool)
    requires ws == ["this", "is", "the", "third"]
    requires ts == [OtherWord, OtherWord, OtherWord, OtherWord]
    ensures Tokens(ws, shortScale) == ts
  {
    forall i | 0 <= i < 4
      ensures Classify(ws[i], shortScale) == ts[i]
    {
      if i == 0 { ReadThis(shortScale); }
      else if i == 1 { ReadIs(shortScale); }
      else if i == 2 { ReadThe(shortScale); }
      else if i == 3 { ReadThird(shortScale); }
    }
    TokensOfReadings(ws, ts, shortScale);
  }

  lemma ExtractThisIsTheThirdTestReadings1(ws: seq<string>, ts: seq<Token>, shortScale: bool)
    requires ws == ["test"]
    requires ts == [OtherWord]
    ensures Tokens(ws, shortScale) == ts
  {
    forall i | 0 <= i < 1
      ensures Classify(ws[i], shortScale) == ts[i]
    {
      if i == 0 { ReadTest(shortScale); }
    }
    TokensOfReadings(ws, ts, shortScale);
  }

  lemma ExtractThisIsTheThirdTestWordChunks()
    ensures ["this", "is", "the", "third", "test"] == ["this", "is", "the", "third"] + ["test"]
  {
  }

  lemma ExtractThisIsTheThirdTestTokenChunks(shortScale: bool)
    ensures [OtherWord, OtherWord, OtherWord, OtherWord, OtherWord] == [OtherWord, OtherWord, OtherWord, OtherWord] + [OtherWord]
  {
  }

  lemma ExtractThisIsTheThirdTestReadings(shortScale: bool)
    ensures Tokens(["this", "is", "the", "third", "test"], shortScale) == [OtherWord, OtherWord, OtherWord, OtherWord, OtherWord]
  {
    var w0, w1 := ["this", "is", "the", "third"], ["test"];
    var t0, t1 := [OtherWord, OtherWord, OtherWord, OtherWord], [OtherWord];
    ExtractThisIsTheThirdTestReadings0(w0, t0, shortScale);
    ExtractThisIsTheThirdTestReadings1(w1, t1, shortScale);
    TokensJoin(w0, w1, t0, t1, shortScale);
    ExtractThisIsTheThirdTestWordChunks();
    ExtractThisIsTheThirdTestTokenChunks(shortScale);
  }

  lemma ExtractThisIsTheThirdTestScan0(ts: seq<Token>)
    requires ts == [OtherWord, OtherWord, OtherWord, OtherWord, OtherWord]
    ensures Scan(ts, None, false) == []
  {
    ExtractThisIsTheThirdTestScan1(ts[1..]);
  }

  lemma ExtractThisIsTheThirdTestScan1(ts: seq<Token>)
    requires ts == [OtherWord, OtherWord, OtherWord, OtherWord]
    ensures Scan(ts, None, false) == []
  {
    ExtractThisIsTheThirdTestScan2(ts[1..]);
  }

  lemma ExtractThisIsTheThirdTestScan2(ts: seq<Token>)
    requires ts == [OtherWord, OtherWord, OtherWord]
    ensures Scan(ts, None, false) == []
  {
    ExtractThisIsTheThirdTestScan3(ts[1..]);
  }

  lemma ExtractThisIsTheThirdTestScan3(ts: seq<Token>)
    requires ts == [OtherWord, OtherWord]
    ensures Scan(ts, None, false) == []
  {
    ExtractThisIsTheThirdTestScan4(ts[1..]);
  }

  lemma ExtractThisIsTheThirdTestScan4(ts: seq<Token>)
    requires ts == [OtherWord]
    ensures Scan(ts, None, false) == []
  {
  }

  /** test/test_parse.py:146-147 */
  lemma ExtractThisIsTheThirdTest()
    ensures ExtractNumber("this is the third test", true) == None
  {
    ExtractThisIsTheThirdTestWordsUpto5("this is the third test");
    ExtractThisIsTheThirdTestReadings(true);
    ExtractThisIsTheThirdTestScan0([OtherWord, OtherWord, OtherWord, OtherWord, OtherWord]);
  }

  lemma ExtractOneThirdOfACupWordsUpto1(s: string)
    requires s == "one"
    ensures Words(Lower(s)) == ["one"]
  {
    LowerWordsSingle(s, "one");
  }

  lemma ExtractOneThirdOfACupWordsUpto2(s: string)
    requires s == "one third"
    ensures Words(Lower(s)) == ["one", "third"]
  {
    var p := s[..3];
    LowerWordsNext(s, p, 1, "third", "third");
    ExtractOneThirdOfACupWordsUpto1(p);
  }

  lemma ExtractOneThirdOfACupWordsUpto3(s: string)
    requires s == "one third of"
    ensures Words(Lower(s)) == ["one", "third", "of"]
  {
    var p := s[..9];
    LowerWordsNext(s, p, 1, "of", "of");
    ExtractOneThirdOfACupWordsUpto2(p);
  }

  lemma ExtractOneThirdOfACupWordsUpto4(s: string)
    requires s == "one third of a"
    ensures Words(Lower(s)) == ["one", "third", "of", "a"]
  {
    var p := s[..12];
    LowerWordsNext(s, p, 1, "a", "a");
    ExtractOneThirdOfACupWordsUpto3(p);
  }

  lemma ExtractOneThirdOfACupWordsUpto5(s: string)
    requires s == "one third of a cup"
    ensures Words(Lower(s)) == ["one", "third", "of", "a", "cup"]
  {
    var p := s[..14];
    LowerWordsNext(s, p, 1, "cup", "cup");
    ExtractOneThirdOfACupWordsUpto4(p);
  }

  lemma ExtractOneThirdOfACupReadings0(ws: seq<string>, ts: seq<Token>, shortScale: bool)
    requires ws == ["one", "third", "of", "a"]
    requires ts == [UnitWord(1), OtherWord, OtherWord, OtherWord]
    ensures Tokens(ws, shortScale) == ts
  {
    forall i | 0 <= i < 4
      ensures Classify(ws[i], shortScale) == ts[i]
    {
      if i == 0 { ReadOne(shortScale); }
      else if i == 1 { ReadThird(shortScale); }
      else if i == 2 { ReadOf(shortScale); }
      else if i == 3 { ReadA(shortScale); }
    }
    TokensOfReadings(ws, ts, shortScale);
  }

  lemma ExtractOneThirdOfACupReadings1(ws: seq<string>, ts: seq<Token>, shortScale: bool)
    requires ws == ["cup"]
    requires ts == [OtherWord]
    ensures Tokens(ws, shortScale) == ts
  {
    forall i | 0 <= i < 1
      ensures Classify(ws[i], shortScale) == ts[i]
    {
      if i == 0 { ReadCup(shortScale); }
    }
    TokensOfReadings(ws, ts, shortScale);
  }

  lemma ExtractOneThirdOfACupWordChunks()
    ensures ["one", "third", "of", "a", "cup"] == ["one", "third", "of", "a"] + ["cup"]
  {
  }

  lemma ExtractOneThirdOfACupTokenChunks(shortScale: bool)
    ensures [UnitWord(1), OtherWord, OtherWord, OtherWord, OtherWord] == [UnitWord(1), OtherWord, OtherWord, OtherWord] + [OtherWord]
  {
  }

  lemma ExtractOneThirdOfACupReadings(shortScale: bool)
    ensures Tokens(["one", "third", "of", "a", "cup"], shortScale) == [UnitWord(1), OtherWord, OtherWord, OtherWord, OtherWord]
  {
    var w0, w1 := ["one", "third", "of", "a"], ["cup"];
    var t0, t1 := [UnitWord(1), OtherWord, OtherWord, OtherWord], [OtherWord];
    ExtractOneThirdOfACupReadings0(w0, t0, shortScale);
    ExtractOneThirdOfACupReadings1(w1, t1, shortScale);
    TokensJoin(w0, w1, t0, t1, shortScale);
    ExtractOneThirdOfACupWordChunks();
    ExtractOneThirdOfACupTokenChunks(shortScale);
  }

  lemma ExtractOneThirdOfACupScan0(ts: seq<Token>)
    requires ts == [UnitWord(1), OtherWord, OtherWord, OtherWord, OtherWord]
    ensures Scan(ts, None, false) == [1]
  {
    ExtractOneThirdOfACupScan1(ts[1..]);
  }

  lemma ExtractOneThirdOfACupScan1(ts: seq<Token>)
    requires ts == [OtherWord, OtherWord, OtherWord, OtherWord]
    ensures Scan(ts, Some(Run(0, 1, UnitWord(1), false)), false) == [1]
  {
    ExtractOneThirdOfACupScan2(ts[1..]);
  }

  lemma ExtractOneThirdOfACupScan2(ts: seq<Token>)
    requires ts == [OtherWord, OtherWord, OtherWord]
    ensures Scan(ts, None, false) == []
  {
    ExtractOneThirdOfACupScan3(ts[1..]);
  }

  lemma ExtractOneThirdOfACupScan3(ts: seq<Token>)
    requires ts == [OtherWord, OtherWord]
    ensures Scan(ts, None, false) == []
  {
    ExtractOneThirdOfACupScan4(ts[1..]);
  }

  lemma ExtractOneThirdOfACupScan4(ts: seq<Token>)
    requires ts == [OtherWord]
    ensures Scan(ts, None, false) == []
  {
  }

  /** test/test_parse.py:153-154 */
  lemma ExtractOneThirdOfACup()
    ensures ExtractNumber("one third of a cup", true) == Some(1)
  {
    ExtractOneThirdOfACupWordsUpto5("one third of a cup");
    ExtractOneThirdOfACupReadings(true);
    ExtractOneThirdOfACupScan0([UnitWord(1), OtherWord, OtherWord, OtherWord, OtherWord]);
  }

  lemma Extract2FifthsWordsUpto1(s: string)
    requires s == "2"
    ensures Words(Lower(s)) == ["2"]
  {
    LowerWordsSingle(s, "2");
  }

  lemma Extract2FifthsWordsUpto2(s: string)
    requires s == "2 fifths"
    ensures Words(Lower(s)) == ["2", "fifths"]
  {
    var p := s[..1];
    LowerWordsNext(s, p, 1, "fifths", "fifths");
    Extract2FifthsWordsUpto1(p);
  }

  lemma Extract2FifthsReadings0(ws: seq<string>, ts: seq<Token>, shortScale: bool)
    requires ws == ["2", "fifths"]
    requires ts == [Digits(2), OtherWord]
    ensures Tokens(ws, shortScale) == ts
  {
    forall i | 0 <= i < 2
      ensures Classify(ws[i], shortScale) == ts[i]
    {
      if i == 0 { Read2(shortScale); }
      else if i == 1 { ReadFifths(shortScale); }
    }
    TokensOfReadings(ws, ts, shortScale);
  }

  lemma Extract2FifthsReadings(shortScale: bool)
    ensures Tokens(["2", "fifths"], shortScale) == [Digits(2), OtherWord]
  {
    Extract2FifthsReadings0(["2", "fifths"], [Digits(2), OtherWord], shortScale);
  }

  lemma Extract2FifthsScan0(ts: seq<Token>)
    requires ts == [Digits(2), OtherWord]
    ensures Scan(ts, None, false) == [2]
  {
    Extract2FifthsScan1(ts[1..]);
  }

  lemma Extract2FifthsScan1(ts: seq<Token>)
    requires ts == [OtherWord]
    ensures Scan(ts, Some(Run(0, 2, Digits(2), false)), false) == [2]
  {
  }

  /** test/test_parse.py:165-166 */
  lemma Extract2Fifths()
    ensures ExtractNumber("2 fifths", true) == Some(2)
  {
    Extract2FifthsWordsUpto2("2 fifths");
    Extract2FifthsReadings(true);
    Extract2FifthsScan0([Digits(2), OtherWord]);
  }

  lemma ExtractSixthThirdWordsUpto1(s: string)
    requires s == "sixth"
    ensures Words(Lower(s)) == ["sixth"]
  {
    LowerWordsSingle(s, "sixth");
  }

  lemma ExtractSixthThirdWordsUpto2(s: string)
    requires s == "sixth third"
    ensures Words(Lower(s)) == ["sixth", "third"]
  {
    var p := s[..5];
    LowerWordsNext(s, p, 1, "third", "third");
    ExtractSixthThirdWordsUpto1(p);
  }

  lemma ExtractSixthThirdReadings0(ws: seq<string>, ts: seq<Token>, shortScale: bool)
    requires ws == ["sixth", "third"]
    requires ts == [OtherWord, OtherWord]
    ensures Tokens(ws, shortScale) == ts
  {
    forall i | 0 <= i < 2
      ensures Classify(ws[i], shortScale) == ts[i]
    {
      if i == 0 { ReadSixth(shortScale); }
      else if i == 1 { ReadThird(shortScale); }
    }
    TokensOfReadings(ws, ts, shortScale);
  }

  lemma ExtractSixthThirdReadings(shortScale: bool)
    ensures Tokens(["sixth", "third"], shortScale) == [OtherWord, OtherWord]
  {
    ExtractSixthThirdReadings0(["sixth", "third"], [OtherWord, OtherWord], shortScale);
  }

  lemma ExtractSixthThirdScan0(ts: seq<Token>)
    requires ts == [OtherWord, OtherWord]
    ensures Scan(ts, None, false) == []
  {
    ExtractSixthThirdScan1(ts[1..]);
  }

  lemma ExtractSixthThirdScan1(ts: seq<Token>)
    requires ts == [OtherWord]
    ensures Scan(ts, None, false) == []
  {
  }

  /** test/test_parse.py:171 */
  lemma ExtractSixthThird()
    ensures ExtractNumber("sixth third", true) == None
  {
    ExtractSixthThirdWordsUpto2("sixth third");
    ExtractSixthThirdReadings(true);
    ExtractSixthThirdScan0([OtherWord, OtherWord]);
  }

  lemma ExtractThirtySecondWordsUpto1(s: string)
    requires s == "thirty"
    ensures Words(Lower(s)) == ["thirty"]
  {
    LowerWordsSingle(s, "thirty");
  }

  lemma ExtractThirtySecondWordsUpto2(s: string)
    requires s == "thirty second"
    ensures Words(Lower(s)) == ["thirty", "second"]
  {
    var p := s[..6];
    LowerWordsNext(s, p, 1, "second", "second");
    ExtractThirtySecondWordsUpto1(p);
  }

  lemma ExtractThirtySecondReadings0(ws: seq<string>, ts: seq<Token>, shortScale: bool)
    requires ws == ["thirty", "second"]
    requires ts == [TensWord(30), OtherWord]
    ensures Tokens(ws, shortScale) == ts
  {
    forall i | 0 <= i < 2
      ensures Classify(ws[i], shortScale) == ts[i]
    {
      if i == 0 { ReadThirty(shortScale); }
      else if i == 1 { ReadSecond(shortScale); }
    }
    TokensOfReadings(ws, ts, shortScale);
  }

  lemma ExtractThirtySecondReadings(shortScale: bool)
    ensures Tokens(["thirty", "second"], shortScale) == [TensWord(30), OtherWord]
  {
    ExtractThirtySecondReadings0(["thirty", "second"], [TensWord(30), OtherWord], shortScale);
  }

  lemma ExtractThirtySecondScan0(ts: seq<Token>)
    requires ts == [TensWord(30), OtherWord]
    ensures Scan(ts, None, false) == [30]
  {
    ExtractThirtySecondScan1(ts[1..]);
  }

  lemma ExtractThirtySecondScan1(ts: seq<Token>)
    requires ts == [OtherWord]
    ensures Scan(ts, Some(Run(0, 30, TensWord(30), false)), false) == [30]
  {
  }

  /** test/test_parse.py:172-173 */
  lemma ExtractThirtySecond()
    ensures ExtractNumber("thirty second", true) == Some(30)
  {
    ExtractThirtySecondWordsUpto2("thirty second");
    ExtractThirtySecondReadings(true);
    ExtractThirtySecondScan0([TensWord(30), OtherWord]);
  }

  lemma ExtractThisIsTheBillionthTestWordsUpto1(s: string)
    requires s == "this"
    ensures Words(Lower(s)) == ["this"]
  {
    LowerWordsSingle(s, "this");
  }

  lemma ExtractThisIsTheBillionthTestWordsUpto2(s: string)
    requires s == "this is"
    ensures Words(Lower(s)) == ["this", "is"]
  {
    var p := s[..4];
    LowerWordsNext(s, p, 1, "is", "is");
    ExtractThisIsTheBillionthTestWordsUpto1(p);
  }

  lemma ExtractThisIsTheBillionthTestWordsUpto3(s: string)
    requires s == "this is the"
    ensures Words(Lower(s)) == ["this", "is", "the"]
  {
    var p := s[..7];
    LowerWordsNext(s, p, 1, "the", "the");
    ExtractThisIsTheBillionthTestWordsUpto2(p);
  }

  lemma ExtractThisIsTheBillionthTestWordsUpto4(s: string)
    requires s == "this is the billionth"
    ensures Words(Lower(s)) == ["this", "is", "the", "billionth"]
  {
    var p := s[..11];
    LowerWordsNext(s, p, 1, "billionth", "billionth");
    ExtractThisIsTheBillionthTestWordsUpto3(p);
  }

  lemma ExtractThisIsTheBillionthTestWordsUpto5(s: string)
    requires s == "this is the billionth test"
    ensures Words(Lower(s)) == ["this", "is", "the", "billionth", "test"]
  {
    var p := s[..21];
    LowerWordsNext(s, p, 1, "test", "test");
    ExtractThisIsTheBillionthTestWordsUpto4(p);
  }

  lemma ExtractThisIsTheBillionthTestReadings0(ws: seq<string>, ts: seq<Token>, shortScale: bool)
    requires ws == ["this", "is", "the", "billionth"]
    requires ts == [OtherWord, OtherWord, OtherWord, OtherWord]
    ensures Tokens(ws, shortScale) == ts
  {
    forall i | 0 <= i < 4
      ensures Classify(ws[i], shortScale) == ts[i]
    {
      if i == 0 { ReadThis(shortScale); }
      else if i == 1 { ReadIs(shortScale); }
      else if i == 2 { ReadThe(shortScale); }
      else if i == 3 { ReadBillionth(shortScale); }
    }
    TokensOfReadings(ws, ts, shortScale);
  }

  lemma ExtractThisIsTheBillionthTestReadings1(ws: seq<string>, ts: seq<Token>, shortScale: bool)
    requires ws == ["test"]
    requires ts == [OtherWord]
    ensures Tokens(ws, shortScale) == ts
  {
    forall i | 0 <= i < 1
      ensures Classify(ws[i], shortScale) == ts[i]
    {
      if i == 0 { ReadTest(shortScale); }
    }
    TokensOfReadings(ws, ts, shortScale);
  }

  lemma ExtractThisIsTheBillionthTestWordChunks()
    ensures ["this", "is", "the", "billionth", "test"] == ["this", "is", "the", "billionth"] + ["test"]
  {
  }

  lemma ExtractThisIsTheBillionthTestTokenChunks(shortScale: bool)
    ensures [OtherWord, OtherWord, OtherWord, OtherWord, OtherWord] == [OtherWord, OtherWord, OtherWord, OtherWord] + [OtherWord]
  {
  }

  lemma ExtractThisIsTheBillionthTestReadings(shortScale: bool)
    ensures Tokens(["this", "is", "the", "billionth", "test"], shortScale) == [OtherWord, OtherWord, OtherWord, OtherWord, OtherWord]
  {
    var w0, w1 := ["this", "is", "the", "billionth"], ["test"];
    var t0, t1 := [OtherWord, OtherWord, OtherWord, OtherWord], [OtherWord];
    ExtractThisIsTheBillionthTestReadings0(w0, t0, shortScale);
    ExtractThisIsTheBillionthTestReadings1(w1, t1, shortScale);
    TokensJoin(w0, w1, t0, t1, shortScale);
    ExtractThisIsTheBillionthTestWordChunks();
    ExtractThisIsTheBillionthTestTokenChunks(shortScale);
  }

  lemma ExtractThisIsTheBillionthTestScan0(ts: seq<Token>)
    requires ts == [OtherWord, OtherWord, OtherWord, OtherWord, OtherWord]
    ensures Scan(ts, None, false) == []
  {
    ExtractThisIsTheBillionthTestScan1(ts[1..]);
  }

  lemma ExtractThisIsTheBillionthTestScan1(ts: seq<Token>)
    requires ts == [OtherWord, OtherWord, OtherWord, OtherWord]
    ensures Scan(ts, None, false) == []
  {
    ExtractThisIsTheBillionthTestScan2(ts[1..]);
  }

  lemma ExtractThisIsTheBillionthTestScan2(ts: seq<Token>)
    requires ts == [OtherWord, OtherWord, OtherWord]
    ensures Scan(ts, None, false) == []
  {
    ExtractThisIsTheBillionthTestScan3(ts[1..]);
  }

  lemma ExtractThisIsTheBillionthTestScan3(ts: seq<Token>)
    requires ts == [OtherWord, OtherWord]
    ensures Scan(ts, None, false) == []
  {
    ExtractThisIsTheBillionthTestScan4(ts[1..]);
  }

  lemma ExtractThisIsTheBillionthTestScan4(ts: seq<Token>)
    requires ts == [OtherWord]
    ensures Scan(ts, None, false) == []
  {
  }

  /** test/test_parse.py:184-185 */
  lemma ExtractThisIsTheBillionthTest()
    ensures ExtractNumber("this is the billionth test", true) == None
  {
    ExtractThisIsTheBillionthTestWordsUpto5("this is the billionth test");
    ExtractThisIsTheBillionthTestReadings(true);
    ExtractThisIsTheBillionthTestScan0([OtherWord, OtherWord, OtherWord, OtherWord, OtherWord]);
  }

  lemma ExtractThisIsTheBillionthTestLongScaleScan0(ts: seq<Token>)
    requires ts == [OtherWord, OtherWord, OtherWord, OtherWord, OtherWord]
    ensures Scan(ts, None, false) == []
  {
    ExtractThisIsTheBillionthTestLongScaleScan1(ts[1..]);
  }

  lemma ExtractThisIsTheBillionthTestLongScaleScan1(ts: seq<Token>)
    requires ts == [OtherWord, OtherWord, OtherWord, OtherWord]
    ensures Scan(ts, None, false) == []
  {
    ExtractThisIsTheBillionthTestLongScaleScan2(ts[1..]);
  }

  lemma ExtractThisIsTheBillionthTestLongScaleScan2(ts: seq<Token>)
    requires ts == [OtherWord, OtherWord, OtherWord]
    ensures Scan(ts, None, false) == []
  {
    ExtractThisIsTheBillionthTestLongScaleScan3(ts[1..]);
  }

  lemma ExtractThisIsTheBillionthTestLongScaleScan3(ts: seq<Token>)
    requires ts == [OtherWord, OtherWord]
    ensures Scan(ts, None, false) == []
  {
    ExtractThisIsTheBillionthTestLongScaleScan4(ts[1..]);
  }

  lemma ExtractThisIsTheBillionthTestLongScaleScan4(ts: seq<Token>)
    requires ts == [OtherWord]
    ensures Scan(ts, None, false) == []
  {
  }

  /** test/test_parse.py:192-194 */
  lemma ExtractThisIsTheBillionthTestLongScale()
    ensures ExtractNumber("this is the billionth test", false) == None
  {
    ExtractThisIsTheBillionthTestWordsUpto5("this is the billionth test");
    ExtractThisIsTheBillionthTestReadings(false);
    ExtractThisIsTheBillionthTestLongScaleScan0([OtherWord, OtherWord, OtherWord, OtherWord, OtherWord]);
  }

  lemma ExtractYouAreTheSecondOneWordsUpto1(s: string)
    requires s == "you"
    ensures Words(Lower(s)) == ["you"]
  {
    LowerWordsSingle(s, "you");
  }

  lemma ExtractYouAreTheSecondOneWordsUpto2(s: string)
    requires s == "you are"
    ensures Words(Lower(s)) == ["you", "are"]
  {
    var p := s[..3];
    LowerWordsNext(s, p, 1, "are", "are");
    ExtractYouAreTheSecondOneWordsUpto1(p);
  }

  lemma ExtractYouAreTheSecondOneWordsUpto3(s: string)
    requires s == "you are the"
    ensures Words(Lower(s)) == ["you", "are", "the"]
  {
    var p := s[..7];
    LowerWordsNext(s, p, 1, "the", "the");
    ExtractYouAreTheSecondOneWordsUpto2(p);
  }

  lemma ExtractYouAreTheSecondOneWordsUpto4(s: string)
    requires s == "you are the second"
    ensures Words(Lower(s)) == ["you", "are", "the", "second"]
  {
    var p := s[..11];
    LowerWordsNext(s, p, 1, "second", "second");
    ExtractYouAreTheSecondOneWordsUpto3(p);
  }

  lemma ExtractYouAreTheSecondOneWordsUpto5(s: string)
    requires s == "you are the second one"
    ensures Words(Lower(s)) == ["you", "are", "the", "second", "one"]
  {
    var p := s[..18];
    LowerWordsNext(s, p, 1, "one", "one");
    ExtractYouAreTheSecondOneWordsUpto4(p);
  }

  lemma ExtractYouAreTheSecondOneReadings0(ws: seq<string>, ts: seq<Token>, shortScale: bool)
    requires ws == ["you", "are", "the", "second"]
    requires ts == [OtherWord, OtherWord, OtherWord, OtherWord]
    ensures Tokens(ws, shortScale) == ts
  {
    forall i | 0 <= i < 4
      ensures Classify(ws[i], shortScale) == ts[i]
    {
      if i == 0 { ReadYou(shortScale); }
      else if i == 1 { ReadAre(shortScale); }
      else if i == 2 { ReadThe(shortScale); }
      else if i == 3 { ReadSecond(shortScale); }
    }
    TokensOfReadings(ws, ts, shortScale);
  }

  lemma ExtractYouAreTheSecondOneReadings1(ws: seq<string>, ts: seq<Token>, shortScale: bool)
    requires ws == ["one"]
    requires ts == [UnitWord(1)]
    ensures Tokens(ws, shortScale) == ts
  {
    forall i | 0 <= i < 1
      ensures Classify(ws[i], shortScale) == ts[i]
    {
      if i == 0 { ReadOne(shortScale); }
    }
    TokensOfReadings(ws, ts, shortScale);
  }

  lemma ExtractYouAreTheSecondOneWordChunks()
    ensures ["you", "are", "the", "second", "one"] == ["you", "are", "the", "second"] + ["one"]
  {
  }

  lemma ExtractYouAreTheSecondOneTokenChunks(shortScale: bool)
    ensures [OtherWord, OtherWord, OtherWord, OtherWord, UnitWord(1)] == [OtherWord, OtherWord, OtherWord, OtherWord] + [UnitWord(1)]
  {
  }

  lemma ExtractYouAreTheSecondOneReadings(shortScale: bool)
    ensures Tokens(["you", "are", "the", "second", "one"], shortScale) == [OtherWord, OtherWord, OtherWord, OtherWord, UnitWord(1)]
  {
    var w0, w1 := ["you", "are", "the", "second"], ["one"];
    var t0, t1 := [OtherWord, OtherWord, OtherWord, OtherWord], [UnitWord(1)];
    ExtractYouAreTheSecondOneReadings0(w0, t0, shortScale);
    ExtractYouAreTheSecondOneReadings1(w1, t1, shortScale);
    TokensJoin(w0, w1, t0, t1, shortScale);
    ExtractYouAreTheSecondOneWordChunks();
    ExtractYouAreTheSecondOneTokenChunks(shortScale);
  }

  lemma ExtractYouAreTheSecondOneScan0(ts: seq<Token>)
    requires ts == [OtherWord, OtherWord, OtherWord, OtherWord, UnitWord(1)]
    ensures Scan(ts, None, false) == [1]
  {
    ExtractYouAreTheSecondOneScan1(ts[1..]);
  }

  lemma ExtractYouAreTheSecondOneScan1(ts: seq<Token>)
    requires ts == [OtherWord, OtherWord, OtherWord, UnitWord(1)]
    ensures Scan(ts, None, false) == [1]
  {
    ExtractYouAreTheSecondOneScan2(ts[1..]);
  }

  lemma ExtractYouAreTheSecondOneScan2(ts: seq<Token>)
    requires ts == [OtherWord, OtherWord, UnitWord(1)]
    ensures Scan(ts, None, false) == [1]
  {
    ExtractYouAreTheSecondOneScan3(ts[1..]);
  }

  lemma ExtractYouAreTheSecondOneScan3(ts: seq<Token>)
    requires ts == [OtherWord, UnitWord(1)]
    ensures Scan(ts, None, false) == [1]
  {
    ExtractYouAreTheSecondOneScan4(ts[1..]);
  }

  lemma ExtractYouAreTheSecondOneScan4(ts: seq<Token>)
    requires ts == [UnitWord(1)]
    ensures Scan(ts, None, false) == [1]
  {
  }

  /** test/test_parse.py:202-203 */
  lemma ExtractYouAreTheSecondOne()
    ensures ExtractNumber("you are the second one", true) == Some(1)
  {
    ExtractYouAreTheSecondOneWordsUpto5("you are the second one");
    ExtractYouAreTheSecondOneReadings(true);
    ExtractYouAreTheSecondOneScan0([OtherWord, OtherWord, OtherWord, OtherWord, UnitWord(1)]);
  }

  lemma ExtractYouAreThe1stOneWordsUpto1(s: string)
    requires s == "you"
    ensures Words(Lower(s)) == ["you"]
  {
    LowerWordsSingle(s, "you");
  }

  lemma ExtractYouAreThe1stOneWordsUpto2(s: string)
    requires s == "you are"
    ensures Words(Lower(s)) == ["you", "are"]
  {
    var p := s[..3];
    LowerWordsNext(s, p, 1, "are", "are");
    ExtractYouAreThe1stOneWordsUpto1(p);
  }

  lemma ExtractYouAreThe1stOneWordsUpto3(s: string)
    requires s == "you are the"
    ensures Words(Lower(s)) == ["you", "are", "the"]
  {
    var p := s[..7];
    LowerWordsNext(s, p, 1, "the", "the");
    ExtractYouAreThe1stOneWordsUpto2(p);
  }

  lemma ExtractYouAreThe1stOneWordsUpto4(s: string)
    requires s == "you are the 1st"
    ensures Words(Lower(s)) == ["you", "are", "the", "1st"]
  {
    var p := s[..11];
    LowerWordsNext(s, p, 1, "1st", "1st");
    ExtractYouAreThe1stOneWordsUpto3(p);
  }

  lemma ExtractYouAreThe1stOneWordsUpto5(s: string)
    requires s == "you are the 1st one"
    ensures Words(Lower(s)) == ["you", "are", "the", "1st", "one"]
  {
    var p := s[..15];
    LowerWordsNext(s, p, 1, "one", "one");
    ExtractYouAreThe1stOneWordsUpto4(p);
  }

  lemma ExtractYouAreThe1stOneReadings0(ws: seq<string>, ts: seq<Token>, shortScale: bool)
    requires ws == ["you", "are", "the", "1st"]
    requires ts == [OtherWord, OtherWord, OtherWord, Digits(1)]
    ensures Tokens(ws, shortScale) == ts
  {
    forall i | 0 <= i < 4
      ensures Classify(ws[i], shortScale) == ts[i]
    {
      if i == 0 { ReadYou(shortScale); }
      else if i == 1 { ReadAre(shortScale); }
      else if i == 2 { ReadThe(shortScale); }
      else if i == 3 { Read1st(shortScale); }
    }
    TokensOfReadings(ws, ts, shortScale);
  }

  lemma ExtractYouAreThe1stOneReadings1(ws: seq<string>, ts: seq<Token>, shortScale: bool)
    requires ws == ["one"]
    requires ts == [UnitWord(1)]
    ensures Tokens(ws, shortScale) == ts
  {
    forall i | 0 <= i < 1
      ensures Classify(ws[i], shortScale) == ts[i]
    {
      if i == 0 { ReadOne(shortScale); }
    }
    TokensOfReadings(ws, ts, shortScale);
  }

  lemma ExtractYouAreThe1stOneWordChunks()
    ensures ["you", "are", "the", "1st", "one"] == ["you", "are", "the", "1st"] + ["one"]
  {
  }

  lemma ExtractYouAreThe1stOneTokenChunks(shortScale: bool)
    ensures [OtherWord, OtherWord, OtherWord, Digits(1), UnitWord(1)] == [OtherWord, OtherWord, OtherWord, Digits(1)] + [UnitWord(1)]
  {
  }

  lemma ExtractYouAreThe1stOneReadings(shortScale: bool)
    ensures Tokens(["you", "are", "the", "1st", "one"], shortScale) == [OtherWord, OtherWord, OtherWord, Digits(1), UnitWord(1)]
  {
    var w0, w1 := ["you", "are", "the", "1st"], ["one"];
    var t0, t1 := [OtherWord, OtherWord, OtherWord, Digits(1)], [UnitWord(1)];
    ExtractYouAreThe1stOneReadings0(w0, t0, shortScale);
    ExtractYouAreThe1stOneReadings1(w1, t1, shortScale);
    TokensJoin(w0, w1, t0, t1, shortScale);
    ExtractYouAreThe1stOneWordChunks();
    ExtractYouAreThe1stOneTokenChunks(shortScale);
  }

  lemma ExtractYouAreThe1stOneScan0(ts: seq<Token>)
    requires ts == [OtherWord, OtherWord, OtherWord, Digits(1), UnitWord(1)]
    ensures Scan(ts, None, false) == [1, 1]
  {
    ExtractYouAreThe1stOneScan1(ts[1..]);
  }

  lemma ExtractYouAreThe1stOneScan1(ts: seq<Token>)
    requires ts == [OtherWord, OtherWord, Digits(1), UnitWord(1)]
    ensures Scan(ts, None, false) == [1, 1]
  {
    ExtractYouAreThe1stOneScan2(ts[1..]);
  }

  lemma ExtractYouAreThe1stOneScan2(ts: seq<Token>)
    requires ts == [OtherWord, Digits(1), UnitWord(1)]
    ensures Scan(ts, None, false) == [1, 1]
  {
    ExtractYouAreThe1stOneScan3(ts[1..]);
  }

  lemma ExtractYouAreThe1stOneScan3(ts: seq<Token>)
    requires ts == [Digits(1), UnitWord(1)]
    ensures Scan(ts, None, false) == [1, 1]
  {
    ExtractYouAreThe1stOneScan4(ts[1..]);
  }

  lemma ExtractYouAreThe1stOneScan4(ts: seq<Token>)
    requires ts == [UnitWord(1)]
    ensures Scan(ts, Some(Run(0, 1, Digits(1), false)), false) == [1, 1]
  {
  }

  /** test/test_parse.py:206-207 */
  lemma ExtractYouAreThe1stOne()
    ensures ExtractNumber("you are the 1st one", true) == Some(1)
  {
    ExtractYouAreThe1stOneWordsUpto5("you are the 1st one");
    ExtractYouAreThe1stOneReadings(true);
    ExtractYouAreThe1stOneScan0([OtherWord, OtherWord, OtherWord, Digits(1), UnitWord(1)]);
  }

  lemma ExtractYouAreThe2ndOneWordsUpto1(s: string)
    requires s == "you"
    ensures Words(Lower(s)) == ["you"]
  {
    LowerWordsSingle(s, "you");
  }

  lemma ExtractYouAreThe2ndOneWordsUpto2(s: string)
    requires s == "you are"
    ensures Words(Lower(s)) == ["you", "are"]
  {
    var p := s[..3];
    LowerWordsNext(s, p, 1, "are", "are");
    ExtractYouAreThe2ndOneWordsUpto1(p);
  }

  lemma ExtractYouAreThe2ndOneWordsUpto3(s: string)
    requires s == "you are the"
    ensures Words(Lower(s)) == ["you", "are", "the"]
  {
    var p := s[..7];
    LowerWordsNext(s, p, 1, "the", "the");
    ExtractYouAreThe2ndOneWordsUpto2(p);
  }

  lemma ExtractYouAreThe2ndOneWordsUpto4(s: string)
    requires s == "you are the 2nd"
    ensures Words(Lower(s)) == ["you", "are", "the", "2nd"]
  {
    var p := s[..11];
    LowerWordsNext(s, p, 1, "2nd", "2nd");
    ExtractYouAreThe2ndOneWordsUpto3(p);
  }

  lemma ExtractYouAreThe2ndOneWordsUpto5(s: string)
    requires s == "you are the 2nd one"
    ensures Words(Lower(s)) == ["you", "are", "the", "2nd", "one"]
  {
    var p := s[..15];
    LowerWordsNext(s, p, 1, "one", "one");
    ExtractYouAreThe2ndOneWordsUpto4(p);
  }

  lemma ExtractYouAreThe2ndOneReadings0(ws: seq<string>, ts: seq<Token>, shortScale: bool)
    requires ws == ["you", "are", "the", "2nd"]
    requires ts == [OtherWord, OtherWord, OtherWord, Digits(2)]
    ensures Tokens(ws, shortScale) == ts
  {
    forall i | 0 <= i < 4
      ensures Classify(ws[i], shortScale) == ts[i]
    {
      if i == 0 { ReadYou(shortScale); }
      else if i == 1 { ReadAre(shortScale); }
      else if i == 2 { ReadThe(shortScale); }
      else if i == 3 { Read2nd(shortScale); }
    }
    TokensOfReadings(ws, ts, shortScale);
  }

  lemma ExtractYouAreThe2ndOneReadings1(ws: seq<string>, ts: seq<Token>, shortScale: bool)
    requires ws == ["one"]
    requires ts == [UnitWord(1)]
    ensures Tokens(ws, shortScale) == ts
  {
    forall i | 0 <= i < 1
      ensures Classify(ws[i], shortScale) == ts[i]
    {
      if i == 0 { ReadOne(shortScale); }
    }
    TokensOfReadings(ws, ts, shortScale);
  }

  lemma ExtractYouAreThe2ndOneWordChunks()
    ensures ["you", "are", "the", "2nd", "one"] == ["you", "are", "the", "2nd"] + ["one"]
  {
  }

  lemma ExtractYouAreThe2ndOneTokenChunks(shortScale: bool)
    ensures [OtherWord, OtherWord, OtherWord, Digits(2), UnitWord(1)] == [OtherWord, OtherWord, OtherWord, Digits(2)] + [UnitWord(1)]
  {
  }

  lemma ExtractYouAreThe2ndOneReadings(shortScale: bool)
    ensures Tokens(["you", "are", "the", "2nd", "one"], shortScale) == [OtherWord, OtherWord, OtherWord, Digits(2), UnitWord(1)]
  {
    var w0, w1 := ["you", "are", "the", "2nd"], ["one"];
    var t0, t1 := [OtherWord, OtherWord, OtherWord, Digits(2)], [UnitWord(1)];
    ExtractYouAreThe2ndOneReadings0(w0, t0, shortScale);
    ExtractYouAreThe2ndOneReadings1(w1, t1, shortScale);
    TokensJoin(w0, w1, t0, t1, shortScale);
    ExtractYouAreThe2ndOneWordChunks();
    ExtractYouAreThe2ndOneTokenChunks(shortScale);
  }

  lemma ExtractYouAreThe2ndOneScan0(ts: seq<Token>)
    requires ts == [OtherWord, OtherWord, OtherWord, Digits(2), UnitWord(1)]
    ensures Scan(ts, None, false) == [2, 1]
  {
    ExtractYouAreThe2ndOneScan1(ts[1..]);
  }

  lemma ExtractYouAreThe2ndOneScan1(ts: seq<Token>)
    requires ts == [OtherWord, OtherWord, Digits(2), UnitWord(1)]
    ensures Scan(ts, None, false) == [2, 1]
  {
    ExtractYouAreThe2ndOneScan2(ts[1..]);
  }

  lemma ExtractYouAreThe2ndOneScan2(ts: seq<Token>)
    requires ts == [OtherWord, Digits(2), UnitWord(1)]
    ensures Scan(ts, None, false) == [2, 1]
  {
    ExtractYouAreThe2ndOneScan3(ts[1..]);
  }

  lemma ExtractYouAreThe2ndOneScan3(ts: seq<Token>)
    requires ts == [Digits(2), UnitWord(1)]
    ensures Scan(ts, None, false) == [2, 1]
  {
    ExtractYouAreThe2ndOneScan4(ts[1..]);
  }

  lemma ExtractYouAreThe2ndOneScan4(ts: seq<Token>)
    requires ts == [UnitWord(1)]
    ensures Scan(ts, Some(Run(0, 2, Digits(2), false)), false) == [2, 1]
  {
  }

  /** test/test_parse.py:208-209 */
  lemma ExtractYouAreThe2ndOne()
    ensures ExtractNumber("you are the 2nd one", true) == Some(2)
  {
    ExtractYouAreThe2ndOneWordsUpto5("you are the 2nd one");
    ExtractYouAreThe2ndOneReadings(true);
    ExtractYouAreThe2ndOneScan0([OtherWord, OtherWord, OtherWord, Digits(2), UnitWord(1)]);
  }

  lemma ExtractYouAreThe3rdOneWordsUpto1(s: string)
    requires s == "you"
    ensures Words(Lower(s)) == ["you"]
  {
    LowerWordsSingle(s, "you");
  }

  lemma ExtractYouAreThe3rdOneWordsUpto2(s: string)
    requires s == "you are"
    ensures Words(Lower(s)) == ["you", "are"]
  {
    var p := s[..3];
    LowerWordsNext(s, p, 1, "are", "are");
    ExtractYouAreThe3rdOneWordsUpto1(p);
  }

  lemma ExtractYouAreThe3rdOneWordsUpto3(s: string)
    requires s == "you are the"
    ensures Words(Lower(s)) == ["you", "are", "the"]
  {
    var p := s[..7];
    LowerWordsNext(s, p, 1, "the", "the");
    ExtractYouAreThe3rdOneWordsUpto2(p);
  }

  lemma ExtractYouAreThe3rdOneWordsUpto4(s: string)
    requires s == "you are the 3rd"
    ensures Words(Lower(s)) == ["you", "are", "the", "3rd"]
  {
    var p := s[..11];
    LowerWordsNext(s, p, 1, "3rd", "3rd");
    ExtractYouAreThe3rdOneWordsUpto3(p);
  }

  lemma ExtractYouAreThe3rdOneWordsUpto5(s: string)
    requires s == "you are the 3rd one"
    ensures Words(Lower(s)) == ["you", "are", "the", "3rd", "one"]
  {
    var p := s[..15];
    LowerWordsNext(s, p, 1, "one", "one");
    ExtractYouAreThe3rdOneWordsUpto4(p);
  }

  lemma ExtractYouAreThe3rdOneReadings0(ws: seq<string>, ts: seq<Token>, shortScale: bool)
    requires ws == ["you", "are", "the", "3rd"]
    requires ts == [OtherWord, OtherWord, OtherWord, Digits(3)]
    ensures Tokens(ws, shortScale) == ts
  {
    forall i | 0 <= i < 4
      ensures Classify(ws[i], shortScale) == ts[i]
    {
      if i == 0 { ReadYou(shortScale); }
      else if i == 1 { ReadAre(shortScale); }
      else if i == 2 { ReadThe(shortScale); }
      else if i == 3 { Read3rd(shortScale); }
    }
    TokensOfReadings(ws, ts, shortScale);
  }

  lemma ExtractYouAreThe3rdOneReadings1(ws: seq<string>, ts: seq<Token>, shortScale: bool)
    requires ws == ["one"]
    requires ts == [UnitWord(1)]
    ensures Tokens(ws, shortScale) == ts
  {
    forall i | 0 <= i < 1
      ensures Classify(ws[i], shortScale) == ts[i]
    {
      if i == 0 { ReadOne(shortScale); }
    }
    TokensOfReadings(ws, ts, shortScale);
  }

  lemma ExtractYouAreThe3rdOneWordChunks()
    ensures ["you", "are", "the", "3rd", "one"] == ["you", "are", "the", "3rd"] + ["one"]
  {
  }

  lemma ExtractYouAreThe3rdOneTokenChunks(shortScale: bool)
    ensures [OtherWord, OtherWord, OtherWord, Digits(3), UnitWord(1)] == [OtherWord, OtherWord, OtherWord, Digits(3)] + [UnitWord(1)]
  {
  }

  lemma ExtractYouAreThe3rdOneReadings(shortScale: bool)
    ensures Tokens(["you", "are", "the", "3rd", "one"], shortScale) == [OtherWord, OtherWord, OtherWord, Digits(3), UnitWord(1)]
  {
    var w0, w1 := ["you", "are", "the", "3rd"], ["one"];
    var t0, t1 := [OtherWord, OtherWord, OtherWord, Digits(3)], [UnitWord(1)];
    ExtractYouAreThe3rdOneReadings0(w0, t0, shortScale);
    ExtractYouAreThe3rdOneReadings1(w1, t1, shortScale);
    TokensJoin(w0, w1, t0, t1, shortScale);
    ExtractYouAreThe3rdOneWordChunks();
    ExtractYouAreThe3rdOneTokenChunks(shortScale);
  }

  lemma ExtractYouAreThe3rdOneScan0(ts: seq<Token>)
    requires ts == [OtherWord, OtherWord, OtherWord, Digits(3), UnitWord(1)]
    ensures Scan(ts, None, false) == [3, 1]
  {
    ExtractYouAreThe3rdOneScan1(ts[1..]);
  }

  lemma ExtractYouAreThe3rdOneScan1(ts: seq<Token>)
    requires ts == [OtherWord, OtherWord, Digits(3), UnitWord(1)]
    ensures Scan(ts, None, false) == [3, 1]
  {
    ExtractYouAreThe3rdOneScan2(ts[1..]);
  }

  lemma ExtractYouAreThe3rdOneScan2(ts: seq<Token>)
    requires ts == [OtherWord, Digits(3), UnitWord(1)]
    ensures Scan(ts, None, false) == [3, 1]
  {
    ExtractYouAreThe3rdOneScan3(ts[1..]);
  }

  lemma ExtractYouAreThe3rdOneScan3(ts: seq<Token>)
    requires ts == [Digits(3), UnitWord(1)]
    ensures Scan(ts, None, false) == [3, 1]
  {
    ExtractYouAreThe3rdOneScan4(ts[1..]);
  }

  lemma ExtractYouAreThe3rdOneScan4(ts: seq<Token>)
    requires ts == [UnitWord(1)]
    ensures Scan(ts, Some(Run(0, 3, Digits(3), false)), false) == [3, 1]
  {
  }

  /** test/test_parse.py:210-211 */
  lemma ExtractYouAreThe3rdOne()
    ensures ExtractNumber("you are the 3rd one", true) == Some(3)
  {
    ExtractYouAreThe3rdOneWordsUpto5("you are the 3rd one");
    ExtractYouAreThe3rdOneReadings(true);
    ExtractYouAreThe3rdOneScan0([OtherWord, OtherWord, OtherWord, Digits(3), UnitWord(1)]);
  }

  lemma ExtractYouAreThe8thOneWordsUpto1(s: string)
    requires s == "you"
    ensures Words(Lower(s)) == ["you"]
  {
    LowerWordsSingle(s, "you");
  }

  lemma ExtractYouAreThe8thOneWordsUpto2(s: string)
    requires s == "you are"
    ensures Words(Lower(s)) == ["you", "are"]
  {
    var p := s[..3];
    LowerWordsNext(s, p, 1, "are", "are");
    ExtractYouAreThe8thOneWordsUpto1(p);
  }

  lemma ExtractYouAreThe8thOneWordsUpto3(s: string)
    requires s == "you are the"
    ensures Words(Lower(s)) == ["you", "are", "the"]
  {
    var p := s[..7];
    LowerWordsNext(s, p, 1, "the", "the");
    ExtractYouAreThe8thOneWordsUpto2(p);
  }

  lemma ExtractYouAreThe8thOneWordsUpto4(s: string)
    requires s == "you are the 8th"
    ensures Words(Lower(s)) == ["you", "are", "the", "8th"]
  {
    var p := s[..11];
    LowerWordsNext(s, p, 1, "8th", "8th");
    ExtractYouAreThe8thOneWordsUpto3(p);
  }

  lemma ExtractYouAreThe8thOneWordsUpto5(s: string)
    requires s == "you are the 8th one"
    ensures Words(Lower(s)) == ["you", "are", "the", "8th", "one"]
  {
    var p := s[..15];
    LowerWordsNext(s, p, 1, "one", "one");
    ExtractYouAreThe8thOneWordsUpto4(p);
  }

  lemma ExtractYouAreThe8thOneReadings0(ws: seq<string>, ts: seq<Token>, shortScale: bool)
    requires ws == ["you", "are", "the", "8th"]
    requires ts == [OtherWord, OtherWord, OtherWord, Digits(8)]
    ensures Tokens(ws, shortScale) == ts
  {
    forall i | 0 <= i < 4
      ensures Classify(ws[i], shortScale) == ts[i]
    {
      if i == 0 { ReadYou(shortScale); }
      else if i == 1 { ReadAre(shortScale); }
      else if i == 2 { ReadThe(shortScale); }
      else if i == 3 { Read8th(shortScale); }
    }
    TokensOfReadings(ws, ts, shortScale);
  }

  lemma ExtractYouAreThe8thOneReadings1(ws: seq<string>, ts: seq<Token>, shortScale: bool)
    requires ws == ["one"]
    requires ts == [UnitWord(1)]
    ensures Tokens(ws, shortScale) == ts
  {
    forall i | 0 <= i < 1
      ensures Classify(ws[i], shortScale) == ts[i]
    {
      if i == 0 { ReadOne(shortScale); }
    }
    TokensOfReadings(ws, ts, shortScale);
  }

  lemma ExtractYouAreThe8thOneWordChunks()
    ensures ["you", "are", "the", "8th", "one"] == ["you", "are", "the", "8th"] + ["one"]
  {
  }

  lemma ExtractYouAreThe8thOneTokenChunks(shortScale: bool)
    ensures [OtherWord, OtherWord, OtherWord, Digits(8), UnitWord(1)] == [OtherWord, OtherWord, OtherWord, Digits(8)] + [UnitWord(1)]
  {
  }

  lemma ExtractYouAreThe8thOneReadings(shortScale: bool)
    ensures Tokens(["you", "are", "the", "8th", "one"], shortScale) == [OtherWord, OtherWord, OtherWord, Digits(8), UnitWord(1)]
  {
    var w0, w1 := ["you", "are", "the", "8th"], ["one"];
    var t0, t1 := [OtherWord, OtherWord, OtherWord, Digits(8)], [UnitWord(1)];
    ExtractYouAreThe8thOneReadings0(w0, t0, shortScale);
    ExtractYouAreThe8thOneReadings1(w1, t1, shortScale);
    TokensJoin(w0, w1, t0, t1, shortScale);
    ExtractYouAreThe8thOneWordChunks();
    ExtractYouAreThe8thOneTokenChunks(shortScale);
  }

  lemma ExtractYouAreThe8thOneScan0(ts: seq<Token>)
    requires ts == [OtherWord, OtherWord, OtherWord, Digits(8), UnitWord(1)]
    ensures Scan(ts, None, false) == [8, 1]
  {
    ExtractYouAreThe8thOneScan1(ts[1..]);
  }

  lemma ExtractYouAreThe8thOneScan1(ts: seq<Token>)
    requires ts == [OtherWord, OtherWord, Digits(8), UnitWord(1)]
    ensures Scan(ts, None, false) == [8, 1]
  {
    ExtractYouAreThe8thOneScan2(ts[1..]);
  }

  lemma ExtractYouAreThe8thOneScan2(ts: seq<Token>)
    requires ts == [OtherWord, Digits(8), UnitWord(1)]
    ensures Scan(ts, None, false) == [8, 1]
  {
    ExtractYouAreThe8thOneScan3(ts[1..]);
  }

  lemma ExtractYouAreThe8thOneScan3(ts: seq<Token>)
    requires ts == [Digits(8), UnitWord(1)]
    ensures Scan(ts, None, false) == [8, 1]
  {
    ExtractYouAreThe8thOneScan4(ts[1..]);
  }

  lemma ExtractYouAreThe8thOneScan4(ts: seq<Token>)
    requires ts == [UnitWord(1)]
    ensures Scan(ts, Some(Run(0, 8, Digits(8), false)), false) == [8, 1]
  {
  }

  /** test/test_parse.py:212-213 */
  lemma ExtractYouAreThe8thOne()
    ensures ExtractNumber("you are the 8th one", true) == Some(8)
  {
    ExtractYouAreThe8thOneWordsUpto5("you are the 8th one");
    ExtractYouAreThe8thOneReadings(true);
    ExtractYouAreThe8thOneScan0([OtherWord, OtherWord, OtherWord, Digits(8), UnitWord(1)]);
  }

  lemma ExtractThisIs2TestWordsUpto1(s: string)
    requires s == "this"
    ensures Words(Lower(s)) == ["this"]
  {
    LowerWordsSingle(s, "this");
  }

  lemma ExtractThisIs2TestWordsUpto2(s: string)
    requires s == "this is"
    ensures Words(Lower(s)) == ["this", "is"]
  {
    var p := s[..4];
    LowerWordsNext(s, p, 1, "is", "is");
    ExtractThisIs2TestWordsUpto1(p);
  }

  lemma ExtractThisIs2TestWordsUpto3(s: string)
    requires s == "this is 2"
    ensures Words(Lower(s)) == ["this", "is", "2"]
  {
    var p := s[..7];
    LowerWordsNext(s, p, 1, "2", "2");
    ExtractThisIs2TestWordsUpto2(p);
  }

  lemma ExtractThisIs2TestWordsUpto4(s: string)
    requires s == "this is 2 test"
    ensures Words(Lower(s)) == ["this", "is", "2", "test"]
  {
    var p := s[..9];
    LowerWordsNext(s, p, 1, "test", "test");
    ExtractThisIs2TestWordsUpto3(p);
  }

  lemma ExtractThisIs2TestReadings0(ws: seq<string>, ts: seq<Token>, shortScale: bool)
    requires ws == ["this", "is", "2", "test"]
    requires ts == [OtherWord, OtherWord, Digits(2), OtherWord]
    ensures Tokens(ws, shortScale) == ts
  {
    forall i | 0 <= i < 4
      ensures Classify(ws[i], shortScale) == ts[i]
    {
      if i == 0 { ReadThis(shortScale); }
      else if i == 1 { ReadIs(shortScale); }
      else if i == 2 { Read2(shortScale); }
      else if i == 3 { ReadTest(shortScale); }
    }
    TokensOfReadings(ws, ts, shortScale);
  }

  lemma ExtractThisIs2TestReadings(shortScale: bool)
    ensures Tokens(["this", "is", "2", "test"], shortScale) == [OtherWord, OtherWord, Digits(2), OtherWord]
  {
    ExtractThisIs2TestReadings0(["this", "is", "2", "test"], [OtherWord, OtherWord, Digits(2), OtherWord], shortScale);
  }

  lemma ExtractThisIs2TestScan0(ts: seq<Token>)
    requires ts == [OtherWord, OtherWord, Digits(2), OtherWord]
    ensures Scan(ts, None, false) == [2]
  {
    ExtractThisIs2TestScan1(ts[1..]);
  }

  lemma ExtractThisIs2TestScan1(ts: seq<Token>)
    requires ts == [OtherWord, Digits(2), OtherWord]
    ensures Scan(ts, None, false) == [2]
  {
    ExtractThisIs2TestScan2(ts[1..]);
  }

  lemma ExtractThisIs2TestScan2(ts: seq<Token>)
    requires ts == [Digits(2), OtherWord]
    ensures Scan(ts, None, false) == [2]
  {
    ExtractThisIs2TestScan3(ts[1..]);
  }

  lemma ExtractThisIs2TestScan3(ts: seq<Token>)
    requires ts == [OtherWord]
    ensures Scan(ts, Some(Run(0, 2, Digits(2), false)), false) == [2]
  {
  }

  /** test/test_parse.py:217 */
  lemma ExtractThisIs2Test()
    ensures ExtractNumber("this is 2 test", true) == Some(2)
  {
    ExtractThisIs2TestWordsUpto4("this is 2 test");
    ExtractThisIs2TestReadings(true);
    ExtractThisIs2TestScan0([OtherWord, OtherWord, Digits(2), OtherWord]);
  }

  lemma ExtractThisIsTestNumber4WordsUpto1(s: string)
    requires s == "this"
    ensures Words(Lower(s)) == ["this"]
  {
    LowerWordsSingle(s, "this");
  }

  lemma ExtractThisIsTestNumber4WordsUpto2(s: string)
    requires s == "this is"
    ensures Words(Lower(s)) == ["this", "is"]
  {
    var p := s[..4];
    LowerWordsNext(s, p, 1, "is", "is");
    ExtractThisIsTestNumber4WordsUpto1(p);
  }

  lemma ExtractThisIsTestNumber4WordsUpto3(s: string)
    requires s == "this is test"
    ensures Words(Lower(s)) == ["this", "is", "test"]
  {
    var p := s[..7];
    LowerWordsNext(s, p, 1, "test", "test");
    ExtractThisIsTestNumber4WordsUpto2(p);
  }

  lemma ExtractThisIsTestNumber4WordsUpto4(s: string)
    requires s == "this is test number"
    ensures Words(Lower(s)) == ["this", "is", "test", "number"]
  {
    var p := s[..12];
    LowerWordsNext(s, p, 1, "number", "number");
    ExtractThisIsTestNumber4WordsUpto3(p);
  }

  lemma ExtractThisIsTestNumber4WordsUpto5(s: string)
    requires s == "this is test number 4"
    ensures Words(Lower(s)) == ["this", "is", "test", "number", "4"]
  {
    var p := s[..19];
    LowerWordsNext(s, p, 1, "4", "4");
    ExtractThisIsTestNumber4WordsUpto4(p);
  }

  lemma ExtractThisIsTestNumber4Readings0(ws: seq<string>, ts: seq<Token>, shortScale: bool)
    requires ws == ["this", "is", "test", "number"]
    requires ts == [OtherWord, OtherWord, OtherWord, OtherWord]
    ensures Tokens(ws, shortScale) == ts
  {
    forall i | 0 <= i < 4
      ensures Classify(ws[i], shortScale) == ts[i]
    {
      if i == 0 { ReadThis(shortScale); }
      else if i == 1 { ReadIs(shortScale); }
      else if i == 2 { ReadTest(shortScale); }
      else if i == 3 { ReadNumber(shortScale); }
    }
    TokensOfReadings(ws, ts, shortScale);
  }

  lemma ExtractThisIsTestNumber4Readings1(ws: seq<string>, ts: seq<Token>, shortScale: bool)
    requires ws == ["4"]
    requires ts == [Digits(4)]
    ensures Tokens(ws, shortScale) == ts
  {
    forall i | 0 <= i < 1
      ensures Classify(ws[i], shortScale) == ts[i]
    {
      if i == 0 { Read4(shortScale); }
    }
    TokensOfReadings(ws, ts, shortScale);
  }

  lemma ExtractThisIsTestNumber4WordChunks()
    ensures ["this", "is", "test", "number", "4"] == ["this", "is", "test", "number"] + ["4"]
  {
  }

  lemma ExtractThisIsTestNumber4TokenChunks(shortScale: bool)
    ensures [OtherWord, OtherWord, OtherWord, OtherWord, Digits(4)] == [OtherWord, OtherWord, OtherWord, OtherWord] + [Digits(4)]
  {
  }

  lemma ExtractThisIsTestNumber4Readings(shortScale: bool)
    ensures Tokens(["this", "is", "test", "number", "4"], shortScale) == [OtherWord, OtherWord, OtherWord, OtherWord, Digits(4)]
  {
    var w0, w1 := ["this", "is", "test", "number"], ["4"];
    var t0, t1 := [OtherWord, OtherWord, OtherWord, OtherWord], [Digits(4)];
    ExtractThisIsTestNumber4Readings0(w0, t0, shortScale);
    ExtractThisIsTestNumber4Readings1(w1, t1, shortScale);
    TokensJoin(w0, w1, t0, t1, shortScale);
    ExtractThisIsTestNumber4WordChunks();
    ExtractThisIsTestNumber4TokenChunks(shortScale);
  }

  lemma ExtractThisIsTestNumber4Scan0(ts: seq<Token>)
    requires ts == [OtherWord, OtherWord, OtherWord, OtherWord, Digits(4)]
    ensures Scan(ts, None, false) == [4]
  {
    ExtractThisIsTestNumber4Scan1(ts[1..]);
  }

  lemma ExtractThisIsTestNumber4Scan1(ts: seq<Token>)
    requires ts == [OtherWord, OtherWord, OtherWord, Digits(4)]
    ensures Scan(ts, None, false) == [4]
  {
    ExtractThisIsTestNumber4Scan2(ts[1..]);
  }

  lemma ExtractThisIsTestNumber4Scan2(ts: seq<Token>)
    requires ts == [OtherWord, OtherWord, Digits(4)]
    ensures Scan(ts, None, false) == [4]
  {
    ExtractThisIsTestNumber4Scan3(ts[1..]);
  }

  lemma ExtractThisIsTestNumber4Scan3(ts: seq<Token>)
    requires ts == [OtherWord, Digits(4)]
    ensures Scan(ts, None, false) == [4]
  {
    ExtractThisIsTestNumber4Scan4(ts[1..]);
  }

  lemma ExtractThisIsTestNumber4Scan4(ts: seq<Token>)
    requires ts == [Digits(4)]
    ensures Scan(ts, None, false) == [4]
  {
  }

  /** test/test_parse.py:218 */
  lemma ExtractThisIsTestNumber4()
    ensures ExtractNumber("this is test number 4", true) == Some(4)
  {
    ExtractThisIsTestNumber4WordsUpto5("this is test number 4");
    ExtractThisIsTestNumber4Readings(true);
    ExtractThisIsTestNumber4Scan0([OtherWord, OtherWord, OtherWord, OtherWord, Digits(4)]);
  }

  lemma ExtractThreeCupsWordsUpto1(s: string)
    requires s == "three"
    ensures Words(Lower(s)) == ["three"]
  {
    LowerWordsSingle(s, "three");
  }

  lemma ExtractThreeCupsWordsUpto2(s: string)
    requires s == "three cups"
    ensures Words(Lower(s)) == ["three", "cups"]
  {
    var p := s[..5];
    LowerWordsNext(s, p, 1, "cups", "cups");
    ExtractThreeCupsWordsUpto1(p);
  }

  lemma ExtractThreeCupsReadings0(ws: seq<string>, ts: seq<Token>, shortScale: bool)
    requires ws == ["three", "cups"]
    requires ts == [UnitWord(3), OtherWord]
    ensures Tokens(ws, shortScale) == ts
  {
    forall i | 0 <= i < 2
      ensures Classify(ws[i], shortScale) == ts[i]
    {
      if i == 0 { ReadThree(shortScale); }
      else if i == 1 { ReadCups(shortScale); }
    }
    TokensOfReadings(ws, ts, shortScale);
  }

  lemma ExtractThreeCupsReadings(shortScale: bool)
    ensures Tokens(["three", "cups"], shortScale) == [UnitWord(3), OtherWord]
  {
    ExtractThreeCupsReadings0(["three", "cups"], [UnitWord(3), OtherWord], shortScale);
  }

  lemma ExtractThreeCupsScan0(ts: seq<Token>)
    requires ts == [UnitWord(3), OtherWord]
    ensures Scan(ts, None, false) == [3]
  {
    ExtractThreeCupsScan1(ts[1..]);
  }

  lemma ExtractThreeCupsScan1(ts: seq<Token>)
    requires ts == [OtherWord]
    ensures Scan(ts, Some(Run(0, 3, UnitWord(3), false)), false) == [3]
  {
  }

  /** test/test_parse.py:219 */
  lemma ExtractThreeCups()
    ensures ExtractNumber("three cups", true) == Some(3)
  {
    ExtractThreeCupsWordsUpto2("three cups");
    ExtractThreeCupsReadings(true);
    ExtractThreeCupsScan0([UnitWord(3), OtherWord]);
  }

  lemma ExtractTwentyTwoWordsUpto1(s: string)
    requires s == "twenty"
    ensures Words(Lower(s)) == ["twenty"]
  {
    LowerWordsSingle(s, "twenty");
  }

  lemma ExtractTwentyTwoWordsUpto2(s: string)
    requires s == "twenty two"
    ensures Words(Lower(s)) == ["twenty", "two"]
  {
    var p := s[..6];
    LowerWordsNext(s, p, 1, "two", "two");
    ExtractTwentyTwoWordsUpto1(p);
  }

  lemma ExtractTwentyTwoReadings0(ws: seq<string>, ts: seq<Token>, shortScale: bool)
    requires ws == ["twenty", "two"]
    requires ts == [TensWord(20), UnitWord(2)]
    ensures Tokens(ws, shortScale) == ts
  {
    forall i | 0 <= i < 2
      ensures Classify(ws[i], shortScale) == ts[i]
    {
      if i == 0 { ReadTwenty(shortScale); }
      else if i == 1 { ReadTwo(shortScale); }
    }
    TokensOfReadings(ws, ts, shortScale);
  }

  lemma ExtractTwentyTwoReadings(shortScale: bool)
    ensures Tokens(["twenty", "two"], shortScale) == [TensWord(20), UnitWord(2)]
  {
    ExtractTwentyTwoReadings0(["twenty", "two"], [TensWord(20), UnitWord(2)], shortScale);
  }

  lemma ExtractTwentyTwoScan0(ts: seq<Token>)
    requires ts == [TensWord(20), UnitWord(2)]
    ensures Scan(ts, None, false) == [22]
  {
    ExtractTwentyTwoScan1(ts[1..]);
  }

  lemma ExtractTwentyTwoScan1(ts: seq<Token>)
    requires ts == [UnitWord(2)]
    ensures Scan(ts, Some(Run(0, 20, TensWord(20), false)), false) == [22]
  {
  }

  /** test/test_parse.py:233 */
  lemma ExtractTwentyTwo()
    ensures ExtractNumber("twenty two", true) == Some(22)
  {
    ExtractTwentyTwoWordsUpto2("twenty two");
    ExtractTwentyTwoReadings(true);
    ExtractTwentyTwoScan0([TensWord(20), UnitWord(2)]);
  }

  lemma ExtractTwentyTwoWithALeadingWordsUpto1(s: string)
    requires s == "Twenty"
    ensures Words(Lower(s)) == ["twenty"]
  {
    LowerWordsSingle(s, "twenty");
  }

  lemma ExtractTwentyTwoWithALeadingWordsUpto2(s: string)
    requires s == "Twenty two"
    ensures Words(Lower(s)) == ["twenty", "two"]
  {
    var p := s[..6];
    LowerWordsNext(s, p, 1, "two", "two");
    ExtractTwentyTwoWithALeadingWordsUpto1(p);
  }

  lemma ExtractTwentyTwoWithALeadingWordsUpto3(s: string)
    requires s == "Twenty two with"
    ensures Words(Lower(s)) == ["twenty", "two", "with"]
  {
    var p := s[..10];
    LowerWordsNext(s, p, 1, "with", "with");
    ExtractTwentyTwoWithALeadingWordsUpto2(p);
  }

  lemma ExtractTwentyTwoWithALeadingWordsUpto4(s: string)
    requires s == "Twenty two with a"
    ensures Words(Lower(s)) == ["twenty", "two", "with", "a"]
  {
    var p := s[..15];
    LowerWordsNext(s, p, 1, "a", "a");
    ExtractTwentyTwoWithALeadingWordsUpto3(p);
  }

  lemma ExtractTwentyTwoWithALeadingWordsUpto5(s: string)
    requires s == "Twenty two with a leading"
    ensures Words(Lower(s)) == ["twenty", "two", "with", "a", "leading"]
  {
    var p := s[..17];
    LowerWordsNext(s, p, 1, "leading", "leading");
    ExtractTwentyTwoWithALeadingWordsUpto4(p);
  }

  lemma ExtractTwentyTwoWithALeadingWordsUpto6(s: string)
    requires s == "Twenty two with a leading capital"
    ensures Words(Lower(s)) == ["twenty", "two", "with", "a", "leading", "capital"]
  {
    var p := s[..25];
    LowerWordsNext(s, p, 1, "capital", "capital");
    ExtractTwentyTwoWithALeadingWordsUpto5(p);
  }

  lemma ExtractTwentyTwoWithALeadingWordsUpto7(s: string)
    requires s == "Twenty two with a leading capital letter"
    ensures Words(Lower(s)) == ["twenty", "two", "with", "a", "leading", "capital", "letter"]
  {
    var p := s[..33];
    LowerWordsNext(s, p, 1, "letter", "letter");
    ExtractTwentyTwoWithALeadingWordsUpto6(p);
  }

  lemma ExtractTwentyTwoWithALeadingReadings0(ws: seq<string>, ts: seq<Token>, shortScale: bool)
    requires ws == ["twenty", "two", "with", "a"]
    requires ts == [TensWord(20), UnitWord(2), OtherWord, OtherWord]
    ensures Tokens(ws, shortScale) == ts
  {
    forall i | 0 <= i < 4
      ensures Classify(ws[i], shortScale) == ts[i]
    {
      if i == 0 { ReadTwenty(shortScale); }
      else if i == 1 { ReadTwo(shortScale); }
      else if i == 2 { ReadWith(shortScale); }
      else if i == 3 { ReadA(shortScale); }
    }
    TokensOfReadings(ws, ts, shortScale);
  }

  lemma ExtractTwentyTwoWithALeadingReadings1(ws: seq<string>, ts: seq<Token>, shortScale: bool)
    requires ws == ["leading", "capital", "letter"]
    requires ts == [OtherWord, OtherWord, OtherWord]
    ensures Tokens(ws, shortScale) == ts
  {
    forall i | 0 <= i < 3
      ensures Classify(ws[i], shortScale) == ts[i]
    {
      if i == 0 { ReadLeading(shortScale); }
      else if i == 1 { ReadCapital(shortScale); }
      else if i == 2 { ReadLetter(shortScale); }
    }
    TokensOfReadings(ws, ts, shortScale);
  }

  lemma ExtractTwentyTwoWithALeadingWordChunks()
    ensures ["twenty", "two", "with", "a", "leading", "capital", "letter"] == ["twenty", "two", "with", "a"] + ["leading", "capital", "letter"]
  {
  }

  lemma ExtractTwentyTwoWithALeadingTokenChunks(shortScale: bool)
    ensures [TensWord(20), UnitWord(2), OtherWord, OtherWord, OtherWord, OtherWord, OtherWord] == [TensWord(20), UnitWord(2), OtherWord, OtherWord] + [OtherWord, OtherWord, OtherWord]
  {
  }

  lemma ExtractTwentyTwoWithALeadingReadings(shortScale: bool)
    ensures Tokens(["twenty", "two", "with", "a", "leading", "capital", "letter"], shortScale) == [TensWord(20), UnitWord(2), OtherWord, OtherWord, OtherWord, OtherWord, OtherWord]
  {
    var w0, w1 := ["twenty", "two", "with", "a"], ["leading", "capital", "letter"];
    var t0, t1 := [TensWord(20), UnitWord(2), OtherWord, OtherWord], [OtherWord, OtherWord, OtherWord];
    ExtractTwentyTwoWithALeadingReadings0(w0, t0, shortScale);
    ExtractTwentyTwoWithALeadingReadings1(w1, t1, shortScale);
    TokensJoin(w0, w1, t0, t1, shortScale);
    ExtractTwentyTwoWithALeadingWordChunks();
    ExtractTwentyTwoWithALeadingTokenChunks(shortScale);
  }

  lemma ExtractTwentyTwoWithALeadingScan0(ts: seq<Token>)
    requires ts == [TensWord(20), UnitWord(2), OtherWord, OtherWord, OtherWord, OtherWord, OtherWord]
    ensures Scan(ts, None, false) == [22]
  {
    ExtractTwentyTwoWithALeadingScan1(ts[1..]);
  }

  lemma ExtractTwentyTwoWithALeadingScan1(ts: seq<Token>)
    requires ts == [UnitWord(2), OtherWord, OtherWord, OtherWord, OtherWord, OtherWord]
    ensures Scan(ts, Some(Run(0, 20, TensWord(20), false)), false) == [22]
  {
    ExtractTwentyTwoWithALeadingScan2(ts[1..]);
  }

  lemma ExtractTwentyTwoWithALeadingScan2(ts: seq<Token>)
    requires ts == [OtherWord, OtherWord, OtherWord, OtherWord, OtherWord]
    ensures Scan(ts, Some(Run(0, 22, UnitWord(2), false)), false) == [22]
  {
    ExtractTwentyTwoWithALeadingScan3(ts[1..]);
  }

  lemma ExtractTwentyTwoWithALeadingScan3(ts: seq<Token>)
    requires ts == [OtherWord, OtherWord, OtherWord, OtherWord]
    ensures Scan(ts, None, false) == []
  {
    ExtractTwentyTwoWithALeadingScan4(ts[1..]);
  }

  lemma ExtractTwentyTwoWithALeadingScan4(ts: seq<Token>)
    requires ts == [OtherWord, OtherWord, OtherWord]
    ensures Scan(ts, None, false) == []
  {
    ExtractTwentyTwoWithALeadingScan5(ts[1..]);
  }

  lemma ExtractTwentyTwoWithALeadingScan5(ts: seq<Token>)
    requires ts == [OtherWord, OtherWord]
    ensures Scan(ts, None, false) == []
  {
    ExtractTwentyTwoWithALeadingScan6(ts[1..]);
  }

  lemma ExtractTwentyTwoWithALeadingScan6(ts: seq<Token>)
    requires ts == [OtherWord]
    ensures Scan(ts, None, false) == []
  {
  }

  /** test/test_parse.py:234-235 */
  lemma ExtractTwentyTwoWithALeading()
    ensures ExtractNumber("Twenty two with a leading capital letter", true) == Some(22)
  {
    ExtractTwentyTwoWithALeadingWordsUpto7("Twenty two with a leading capital letter");
    ExtractTwentyTwoWithALeadingReadings(true);
    ExtractTwentyTwoWithALeadingScan0([TensWord(20), UnitWord(2), OtherWord, OtherWord, OtherWord, OtherWord, OtherWord]);
  }

  lemma ExtractTwentyTwoWithTwoCapitalWordsUpto1(s: string)
    requires s == "twenty"
    ensures Words(Lower(s)) == ["twenty"]
  {
    LowerWordsSingle(s, "twenty");
  }

  lemma ExtractTwentyTwoWithTwoCapitalWordsUpto2(s: string)
    requires s == "twenty Two"
    ensures Words(Lower(s)) == ["twenty", "two"]
  {
    var p := s[..6];
    LowerWordsNext(s, p, 1, "Two", "two");
    ExtractTwentyTwoWithTwoCapitalWordsUpto1(p);
  }

  lemma ExtractTwentyTwoWithTwoCapitalWordsUpto3(s: string)
    requires s == "twenty Two with"
    ensures Words(Lower(s)) == ["twenty", "two", "with"]
  {
    var p := s[..10];
    LowerWordsNext(s, p, 1, "with", "with");
    ExtractTwentyTwoWithTwoCapitalWordsUpto2(p);
  }

  lemma ExtractTwentyTwoWithTwoCapitalWordsUpto4(s: string)
    requires s == "twenty Two with Two"
    ensures Words(Lower(s)) == ["twenty", "two", "with", "two"]
  {
    var p := s[..15];
    LowerWordsNext(s, p, 1, "Two", "two");
    ExtractTwentyTwoWithTwoCapitalWordsUpto3(p);
  }

  lemma ExtractTwentyTwoWithTwoCapitalWordsUpto5(s: string)
    requires s == "twenty Two with Two capital"
    ensures Words(Lower(s)) == ["twenty", "two", "with", "two", "capital"]
  {
    var p := s[..19];
    LowerWordsNext(s, p, 1, "capital", "capital");
    ExtractTwentyTwoWithTwoCapitalWordsUpto4(p);
  }

  lemma ExtractTwentyTwoWithTwoCapitalWordsUpto6(s: string)
    requires s == "twenty Two with Two capital letters"
    ensures Words(Lower(s)) == ["twenty", "two", "with", "two", "capital", "letters"]
  {
    var p := s[..27];
    LowerWordsNext(s, p, 1, "letters", "letters");
    ExtractTwentyTwoWithTwoCapitalWordsUpto5(p);
  }

  lemma ExtractTwentyTwoWithTwoCapitalReadings0(ws: seq<string>, ts: seq<Token>, shortScale: bool)
    requires ws == ["twenty", "two", "with", "two"]
    requires ts == [TensWord(20), UnitWord(2), OtherWord, UnitWord(2)]
    ensures Tokens(ws, shortScale) == ts
  {
    forall i | 0 <= i < 4
      ensures Classify(ws[i], shortScale) == ts[i]
    {
      if i == 0 { ReadTwenty(shortScale); }
      else if i == 1 { ReadTwo(shortScale); }
      else if i == 2 { ReadWith(shortScale); }
      else if i == 3 { ReadTwo(shortScale); }
    }
    TokensOfReadings(ws, ts, shortScale);
  }

  lemma ExtractTwentyTwoWithTwoCapitalReadings1(ws: seq<string>, ts: seq<Token>, shortScale: bool)
    requires ws == ["capital", "letters"]
    requires ts == [OtherWord, OtherWord]
    ensures Tokens(ws, shortScale) == ts
  {
    forall i | 0 <= i < 2
      ensures Classify(ws[i], shortScale) == ts[i]
    {
      if i == 0 { ReadCapital(shortScale); }
      else if i == 1 { ReadLetters(shortScale); }
    }
    TokensOfReadings(ws, ts, shortScale);
  }

  lemma ExtractTwentyTwoWithTwoCapitalWordChunks()
    ensures ["twenty", "two", "with", "two", "capital", "letters"] == ["twenty", "two", "with", "two"] + ["capital", "letters"]
  {
  }

  lemma ExtractTwentyTwoWithTwoCapitalTokenChunks(shortScale: bool)
    ensures [TensWord(20), UnitWord(2), OtherWord, UnitWord(2), OtherWord, OtherWord] == [TensWord(20), UnitWord(2), OtherWord, UnitWord(2)] + [OtherWord, OtherWord]
  {
  }

  lemma ExtractTwentyTwoWithTwoCapitalReadings(shortScale: bool)
    ensures Tokens(["twenty", "two", "with", "two", "capital", "letters"], shortScale) == [TensWord(20), UnitWord(2), OtherWord, UnitWord(2), OtherWord, OtherWord]
  {
    var w0, w1 := ["twenty", "two", "with", "two"], ["capital", "letters"];
    var t0, t1 := [TensWord(20), UnitWord(2), OtherWord, UnitWord(2)], [OtherWord, OtherWord];
    ExtractTwentyTwoWithTwoCapitalReadings0(w0, t0, shortScale);
    ExtractTwentyTwoWithTwoCapitalReadings1(w1, t1, shortScale);
    TokensJoin(w0, w1, t0, t1, shortScale);
    ExtractTwentyTwoWithTwoCapitalWordChunks();
    ExtractTwentyTwoWithTwoCapitalTokenChunks(shortScale);
  }

  lemma ExtractTwentyTwoWithTwoCapitalScan0(ts: seq<Token>)
    requires ts == [TensWord(20), UnitWord(2), OtherWord, UnitWord(2), OtherWord, OtherWord]
    ensures Scan(ts, None, false) == [22, 2]
  {
    ExtractTwentyTwoWithTwoCapitalScan1(ts[1..]);
  }

  lemma ExtractTwentyTwoWithTwoCapitalScan1(ts: seq<Token>)
    requires ts == [UnitWord(2), OtherWord, UnitWord(2), OtherWord, OtherWord]
    ensures Scan(ts, Some(Run(0, 20, TensWord(20), false)), false) == [22, 2]
  {
    ExtractTwentyTwoWithTwoCapitalScan2(ts[1..]);
  }

  lemma ExtractTwentyTwoWithTwoCapitalScan2(ts: seq<Token>)
    requires ts == [OtherWord, UnitWord(2), OtherWord, OtherWord]
    ensures Scan(ts, Some(Run(0, 22, UnitWord(2), false)), false) == [22, 2]
  {
    ExtractTwentyTwoWithTwoCapitalScan3(ts[1..]);
  }

  lemma ExtractTwentyTwoWithTwoCapitalScan3(ts: seq<Token>)
    requires ts == [UnitWord(2), OtherWord, OtherWord]
    ensures Scan(ts, None, false) == [2]
  {
    ExtractTwentyTwoWithTwoCapitalScan4(ts[1..]);
  }

  lemma ExtractTwentyTwoWithTwoCapitalScan4(ts: seq<Token>)
    requires ts == [OtherWord, OtherWord]
    ensures Scan(ts, Some(Run(0, 2, UnitWord(2), false)), false) == [2]
  {
    ExtractTwentyTwoWithTwoCapitalScan5(ts[1..]);
  }

  lemma ExtractTwentyTwoWithTwoCapitalScan5(ts: seq<Token>)
    requires ts == [OtherWord]
    ensures Scan(ts, None, false) == []
  {
  }

  /** test/test_parse.py:236-237 */
  lemma ExtractTwentyTwoWithTwoCapital()
    ensures ExtractNumber("twenty Two with Two capital letters", true) == Some(22)
  {
    ExtractTwentyTwoWithTwoCapitalWordsUpto6("twenty Two with Two capital letters");
    ExtractTwentyTwoWithTwoCapitalReadings(true);
    ExtractTwentyTwoWithTwoCapitalScan0([TensWord(20), UnitWord(2), OtherWord, UnitWord(2), OtherWord, OtherWord]);
  }

  lemma ExtractTwentyTwoWithMixedCapitalWordsUpto1(s: string)
    requires s == "twenty"
    ensures Words(Lower(s)) == ["twenty"]
  {
    LowerWordsSingle(s, "twenty");
  }

  lemma ExtractTwentyTwoWithMixedCapitalWordsUpto2(s: string)
    requires s == "twenty Two"
    ensures Words(Lower(s)) == ["twenty", "two"]
  {
    var p := s[..6];
    LowerWordsNext(s, p, 1, "Two", "two");
    ExtractTwentyTwoWithMixedCapitalWordsUpto1(p);
  }

  lemma ExtractTwentyTwoWithMixedCapitalWordsUpto3(s: string)
    requires s == "twenty Two with"
    ensures Words(Lower(s)) == ["twenty", "two", "with"]
  {
    var p := s[..10];
    LowerWordsNext(s, p, 1, "with", "with");
    ExtractTwentyTwoWithMixedCapitalWordsUpto2(p);
  }

  lemma ExtractTwentyTwoWithMixedCapitalWordsUpto4(s: string)
    requires s == "twenty Two with mixed"
    ensures Words(Lower(s)) == ["twenty", "two", "with", "mixed"]
  {
    var p := s[..15];
    LowerWordsNext(s, p, 1, "mixed", "mixed");
    ExtractTwentyTwoWithMixedCapitalWordsUpto3(p);
  }

  lemma ExtractTwentyTwoWithMixedCapitalWordsUpto5(s: string)
    requires s == "twenty Two with mixed capital"
    ensures Words(Lower(s)) == ["twenty", "two", "with", "mixed", "capital"]
  {
    var p := s[..21];
    LowerWordsNext(s, p, 1, "capital", "capital");
    ExtractTwentyTwoWithMixedCapitalWordsUpto4(p);
  }

  lemma ExtractTwentyTwoWithMixedCapitalWordsUpto6(s: string)
    requires s == "twenty Two with mixed capital letters"
    ensures Words(Lower(s)) == ["twenty", "two", "with", "mixed", "capital", "letters"]
  {
    var p := s[..29];
    LowerWordsNext(s, p, 1, "letters", "letters");
    ExtractTwentyTwoWithMixedCapitalWordsUpto5(p);
  }

  lemma ExtractTwentyTwoWithMixedCapitalReadings0(ws: seq<string>, ts: seq<Token>, shortScale: bool)
    requires ws == ["twenty", "two", "with", "mixed"]
    requires ts == [TensWord(20), UnitWord(2), OtherWord, OtherWord]
    ensures Tokens(ws, shortScale) == ts
  {
    forall i | 0 <= i < 4
      ensures Classify(ws[i], shortScale) == ts[i]
    {
      if i == 0 { ReadTwenty(shortScale); }
      else if i == 1 { ReadTwo(shortScale); }
      else if i == 2 { ReadWith(shortScale); }
      else if i == 3 { ReadMixed(shortScale); }
    }
    TokensOfReadings(ws, ts, shortScale);
  }

  lemma ExtractTwentyTwoWithMixedCapitalReadings1(ws: seq<string>, ts: seq<Token>, shortScale: bool)
    requires ws == ["capital", "letters"]
    requires ts == [OtherWord, OtherWord]
    ensures Tokens(ws, shortScale) == ts
  {
    forall i | 0 <= i < 2
      ensures Classify(ws[i], shortScale) == ts[i]
    {
      if i == 0 { ReadCapital(shortScale); }
      else if i == 1 { ReadLetters(shortScale); }
    }
    TokensOfReadings(ws, ts, shortScale);
  }

  lemma ExtractTwentyTwoWithMixedCapitalWordChunks()
    ensures ["twenty", "two", "with", "mixed", "capital", "letters"] == ["twenty", "two", "with", "mixed"] + ["capital", "letters"]
  {
  }

  lemma ExtractTwentyTwoWithMixedCapitalTokenChunks(shortScale: bool)
    ensures [TensWord(20), UnitWord(2), OtherWord, OtherWord, OtherWord, OtherWord] == [TensWord(20), UnitWord(2), OtherWord, OtherWord] + [OtherWord, OtherWord]
  {
  }

  lemma ExtractTwentyTwoWithMixedCapitalReadings(shortScale: bool)
    ensures Tokens(["twenty", "two", "with", "mixed", "capital", "letters"], shortScale) == [TensWord(20), UnitWord(2), OtherWord, OtherWord, OtherWord, OtherWord]
  {
    var w0, w1 := ["twenty", "two", "with", "mixed"], ["capital", "letters"];
    var t0, t1 := [TensWord(20), UnitWord(2), OtherWord, OtherWord], [OtherWord, OtherWord];
    ExtractTwentyTwoWithMixedCapitalReadings0(w0, t0, shortScale);
    ExtractTwentyTwoWithMixedCapitalReadings1(w1, t1, shortScale);
    TokensJoin(w0, w1, t0, t1, shortScale);
    ExtractTwentyTwoWithMixedCapitalWordChunks();
    ExtractTwentyTwoWithMixedCapitalTokenChunks(shortScale);
  }

  lemma ExtractTwentyTwoWithMixedCapitalScan0(ts: seq<Token>)
    requires ts == [TensWord(20), UnitWord(2), OtherWord, OtherWord, OtherWord, OtherWord]
    ensures Scan(ts, None, false) == [22]
  {
    ExtractTwentyTwoWithMixedCapitalScan1(ts[1..]);
  }

  lemma ExtractTwentyTwoWithMixedCapitalScan1(ts: seq<Token>)
    requires ts == [UnitWord(2), OtherWord, OtherWord, OtherWord, OtherWord]
    ensures Scan(ts, Some(Run(0, 20, TensWord(20), false)), false) == [22]
  {
    ExtractTwentyTwoWithMixedCapitalScan2(ts[1..]);
  }

  lemma ExtractTwentyTwoWithMixedCapitalScan2(ts: seq<Token>)
    requires ts == [OtherWord, OtherWord, OtherWord, OtherWord]
    ensures Scan(ts, Some(Run(0, 22, UnitWord(2), false)), false) == [22]
  {
    ExtractTwentyTwoWithMixedCapitalScan3(ts[1..]);
  }

  lemma ExtractTwentyTwoWithMixedCapitalScan3(ts: seq<Token>)
    requires ts == [OtherWord, OtherWord, OtherWord]
    ensures Scan(ts, None, false) == []
  {
    ExtractTwentyTwoWithMixedCapitalScan4(ts[1..]);
  }

  lemma ExtractTwentyTwoWithMixedCapitalScan4(ts: seq<Token>)
    requires ts == [OtherWord, OtherWord]
    ensures Scan(ts, None, false) == []
  {
    ExtractTwentyTwoWithMixedCapitalScan5(ts[1..]);
  }

  lemma ExtractTwentyTwoWithMixedCapitalScan5(ts: seq<Token>)
    requires ts == [OtherWord]
    ensures Scan(ts, None, false) == []
  {
  }

  /** test/test_parse.py:238-239 */
  lemma ExtractTwentyTwoWithMixedCapital()
    ensures ExtractNumber("twenty Two with mixed capital letters", true) == Some(22)
  {
    ExtractTwentyTwoWithMixedCapitalWordsUpto6("twenty Two with mixed capital letters");
    ExtractTwentyTwoWithMixedCapitalReadings(true);
    ExtractTwentyTwoWithMixedCapitalScan0([TensWord(20), UnitWord(2), OtherWord, OtherWord, OtherWord, OtherWord]);
  }

  lemma ExtractTwoHundredWordsUpto1(s: string)
    requires s == "two"
    ensures Words(Lower(s)) == ["two"]
  {
    LowerWordsSingle(s, "two");
  }

  lemma ExtractTwoHundredWordsUpto2(s: string)
    requires s == "two hundred"
    ensures Words(Lower(s)) == ["two", "hundred"]
  {
    var p := s[..3];
    LowerWordsNext(s, p, 1, "hundred", "hundred");
    ExtractTwoHundredWordsUpto1(p);
  }

  lemma ExtractTwoHundredReadings0(ws: seq<string>, ts: seq<Token>, shortScale: bool)
    requires ws == ["two", "hundred"]
    requires ts == [UnitWord(2), HundredWord]
    ensures Tokens(ws, shortScale) == ts
  {
    forall i | 0 <= i < 2
      ensures Classify(ws[i], shortScale) == ts[i]
    {
      if i == 0 { ReadTwo(shortScale); }
      else if i == 1 { ReadHundred(shortScale); }
    }
    TokensOfReadings(ws, ts, shortScale);
  }

  lemma ExtractTwoHundredReadings(shortScale: bool)
    ensures Tokens(["two", "hundred"], shortScale) == [UnitWord(2), HundredWord]
  {
    ExtractTwoHundredReadings0(["two", "hundred"], [UnitWord(2), HundredWord], shortScale);
  }

  lemma ExtractTwoHundredScan0(ts: seq<Token>)
    requires ts == [UnitWord(2), HundredWord]
    ensures Scan(ts, None, false) == [200]
  {
    ExtractTwoHundredScan1(ts[1..]);
  }

  lemma ExtractTwoHundredScan1(ts: seq<Token>)
    requires ts == [HundredWord]
    ensures Scan(ts, Some(Run(0, 2, UnitWord(2), false)), false) == [200]
  {
  }

  /** test/test_parse.py:240 */
  lemma ExtractTwoHundred()
    ensures ExtractNumber("two hundred", true) == Some(200)
  {
    ExtractTwoHundredWordsUpto2("two hundred");
    ExtractTwoHundredReadings(true);
    ExtractTwoHundredScan0([UnitWord(2), HundredWord]);
  }

  lemma ExtractNineThousandWordsUpto1(s: string)
    requires s == "nine"
    ensures Words(Lower(s)) == ["nine"]
  {
    LowerWordsSingle(s, "nine");
  }

  lemma ExtractNineThousandWordsUpto2(s: string)
    requires s == "nine thousand"
    ensures Words(Lower(s)) == ["nine", "thousand"]
  {
    var p := s[..4];
    LowerWordsNext(s, p, 1, "thousand", "thousand");
    ExtractNineThousandWordsUpto1(p);
  }

  lemma ExtractNineThousandReadings0(ws: seq<string>, ts: seq<Token>, shortScale: bool)
    requires ws == ["nine", "thousand"]
    requires ts == [UnitWord(9), ScaleWord(ScaleValue(0, shortScale))]
    ensures Tokens(ws, shortScale) == ts
  {
    forall i | 0 <= i < 2
      ensures Classify(ws[i], shortScale) == ts[i]
    {
      if i == 0 { ReadNine(shortScale); }
      else if i == 1 { ReadThousand(shortScale); }
    }
    TokensOfReadings(ws, ts, shortScale);
  }

  lemma ExtractNineThousandReadings(shortScale: bool)
    ensures Tokens(["nine", "thousand"], shortScale) == [UnitWord(9), ScaleWord(ScaleValue(0, shortScale))]
  {
    ExtractNineThousandReadings0(["nine", "thousand"], [UnitWord(9), ScaleWord(ScaleValue(0, shortScale))], shortScale);
  }

  lemma ExtractNineThousandScan0(ts: seq<Token>)
    requires ts == [UnitWord(9), ScaleWord(1000)]
    ensures Scan(ts, None, false) == [9000]
  {
    ExtractNineThousandScan1(ts[1..]);
  }

  lemma ExtractNineThousandScan1(ts: seq<Token>)
    requires ts == [ScaleWord(1000)]
    ensures Scan(ts, Some(Run(0, 9, UnitWord(9), false)), false) == [9000]
  {
  }

  /** test/test_parse.py:241 */
  lemma ExtractNineThousand()
    ensures ExtractNumber("nine thousand", true) == Some(9000)
  {
    ExtractNineThousandWordsUpto2("nine thousand");
    ExtractNineThousandReadings(true);
    ScaleValuesThousand();
    ExtractNineThousandScan0([UnitWord(9), ScaleWord(1000)]);
  }

  lemma ExtractSixHundredSixtySixWordsUpto1(s: string)
    requires s == "six"
    ensures Words(Lower(s)) == ["six"]
  {
    LowerWordsSingle(s, "six");
  }

  lemma ExtractSixHundredSixtySixWordsUpto2(s: string)
    requires s == "six hundred"
    ensures Words(Lower(s)) == ["six", "hundred"]
  {
    var p := s[..3];
    LowerWordsNext(s, p, 1, "hundred", "hundred");
    ExtractSixHundredSixtySixWordsUpto1(p);
  }

  lemma ExtractSixHundredSixtySixWordsUpto3(s: string)
    requires s == "six hundred sixty"
    ensures Words(Lower(s)) == ["six", "hundred", "sixty"]
  {
    var p := s[..11];
    LowerWordsNext(s, p, 1, "sixty", "sixty");
    ExtractSixHundredSixtySixWordsUpto2(p);
  }

  lemma ExtractSixHundredSixtySixWordsUpto4(s: string)
    requires s == "six hundred sixty six"
    ensures Words(Lower(s)) == ["six", "hundred", "sixty", "six"]
  {
    var p := s[..17];
    LowerWordsNext(s, p, 1, "six", "six");
    ExtractSixHundredSixtySixWordsUpto3(p);
  }

  lemma ExtractSixHundredSixtySixReadings0(ws: seq<string>, ts: seq<Token>, shortScale: bool)
    requires ws == ["six", "hundred", "sixty", "six"]
    requires ts == [UnitWord(6), HundredWord, TensWord(60), UnitWord(6)]
    ensures Tokens(ws, shortScale) == ts
  {
    forall i | 0 <= i < 4
      ensures Classify(ws[i], shortScale) == ts[i]
    {
      if i == 0 { ReadSix(shortScale); }
      else if i == 1 { ReadHundred(shortScale); }
      else if i == 2 { ReadSixty(shortScale); }
      else if i == 3 { ReadSix(shortScale); }
    }
    TokensOfReadings(ws, ts, shortScale);
  }

  lemma ExtractSixHundredSixtySixReadings(shortScale: bool)
    ensures Tokens(["six", "hundred", "sixty", "six"], shortScale) == [UnitWord(6), HundredWord, TensWord(60), UnitWord(6)]
  {
    ExtractSixHundredSixtySixReadings0(["six", "hundred", "sixty", "six"], [UnitWord(6), HundredWord, TensWord(60), UnitWord(6)], shortScale);
  }

  lemma ExtractSixHundredSixtySixScan0(ts: seq<Token>)
    requires ts == [UnitWord(6), HundredWord, TensWord(60), UnitWord(6)]
    ensures Scan(ts, None, false) == [666]
  {
    ExtractSixHundredSixtySixScan1(ts[1..]);
  }

  lemma ExtractSixHundredSixtySixScan1(ts: seq<Token>)
    requires ts == [HundredWord, TensWord(60), UnitWord(6)]
    ensures Scan(ts, Some(Run(0, 6, UnitWord(6), false)), false) == [666]
  {
    ExtractSixHundredSixtySixScan2(ts[1..]);
  }

  lemma ExtractSixHundredSixtySixScan2(ts: seq<Token>)
    requires ts == [TensWord(60), UnitWord(6)]
    ensures Scan(ts, Some(Run(0, 600, HundredWord, false)), false) == [666]
  {
    ExtractSixHundredSixtySixScan3(ts[1..]);
  }

  lemma ExtractSixHundredSixtySixScan3(ts: seq<Token>)
    requires ts == [UnitWord(6)]
    ensures Scan(ts, Some(Run(0, 660, TensWord(60), false)), false) == [666]
  {
  }

  /** test/test_parse.py:242 */
  lemma ExtractSixHundredSixtySix()
    ensures ExtractNumber("six hundred sixty six", true) == Some(666)
  {
    ExtractSixHundredSixtySixWordsUpto4("six hundred sixty six");
    ExtractSixHundredSixtySixReadings(true);
    ExtractSixHundredSixtySixScan0([UnitWord(6), HundredWord, TensWord(60), UnitWord(6)]);
  }

  lemma ExtractTwoMillionWordsUpto1(s: string)
    requires s == "two"
    ensures Words(Lower(s)) == ["two"]
  {
    LowerWordsSingle(s, "two");
  }

  lemma ExtractTwoMillionWordsUpto2(s: string)
    requires s == "two million"
    ensures Words(Lower(s)) == ["two", "million"]
  {
    var p := s[..3];
    LowerWordsNext(s, p, 1, "million", "million");
    ExtractTwoMillionWordsUpto1(p);
  }

  lemma ExtractTwoMillionReadings0(ws: seq<string>, ts: seq<Token>, shortScale: bool)
    requires ws == ["two", "million"]
    requires ts == [UnitWord(2), ScaleWord(ScaleValue(1, shortScale))]
    ensures Tokens(ws, shortScale) == ts
  {
    forall i | 0 <= i < 2
      ensures Classify(ws[i], shortScale) == ts[i]
    {
      if i == 0 { ReadTwo(shortScale); }
      else if i == 1 { ReadMillion(shortScale); }
    }
    TokensOfReadings(ws, ts, shortScale);
  }

  lemma ExtractTwoMillionReadings(shortScale: bool)
    ensures Tokens(["two", "million"], shortScale) == [UnitWord(2), ScaleWord(ScaleValue(1, shortScale))]
  {
    ExtractTwoMillionReadings0(["two", "million"], [UnitWord(2), ScaleWord(ScaleValue(1, shortScale))], shortScale);
  }

  lemma ExtractTwoMillionScan0(ts: seq<Token>)
    requires ts == [UnitWord(2), ScaleWord(1000000)]
    ensures Scan(ts, None, false) == [2000000]
  {
    ExtractTwoMillionScan1(ts[1..]);
  }

  lemma ExtractTwoMillionScan1(ts: seq<Token>)
    requires ts == [ScaleWord(1000000)]
    ensures Scan(ts, Some(Run(0, 2, UnitWord(2), false)), false) == [2000000]
  {
  }

  /** test/test_parse.py:243 */
  lemma ExtractTwoMillion()
    ensures ExtractNumber("two million", true) == Some(2000000)
  {
    ExtractTwoMillionWordsUpto2("two million");
    ExtractTwoMillionReadings(true);
    ScaleValuesMillion();
    ExtractTwoMillionScan0([UnitWord(2), ScaleWord(1000000)]);
  }

  lemma ExtractTwoMillionFiveHundredThousandWordsUpto1(s: string)
    requires s == "two"
    ensures Words(Lower(s)) == ["two"]
  {
    LowerWordsSingle(s, "two");
  }

  lemma ExtractTwoMillionFiveHundredThousandWordsUpto2(s: string)
    requires s == "two million"
    ensures Words(Lower(s)) == ["two", "million"]
  {
    var p := s[..3];
    LowerWordsNext(s, p, 1, "million", "million");
    ExtractTwoMillionFiveHundredThousandWordsUpto1(p);
  }

  lemma ExtractTwoMillionFiveHundredThousandWordsUpto3(s: string)
    requires s == "two million five"
    ensures Words(Lower(s)) == ["two", "million", "five"]
  {
    var p := s[..11];
    LowerWordsNext(s, p, 1, "five", "five");
    ExtractTwoMillionFiveHundredThousandWordsUpto2(p);
  }

  lemma ExtractTwoMillionFiveHundredThousandWordsUpto4(s: string)
    requires s == "two million five hundred"
    ensures Words(Lower(s)) == ["two", "million", "five", "hundred"]
  {
    var p := s[..16];
    LowerWordsNext(s, p, 1, "hundred", "hundred");
    ExtractTwoMillionFiveHundredThousandWordsUpto3(p);
  }

  lemma ExtractTwoMillionFiveHundredThousandWordsUpto5(s: string)
    requires s == "two million five hundred thousand"
    ensures Words(Lower(s)) == ["two", "million", "five", "hundred", "thousand"]
  {
    var p := s[..24];
    LowerWordsNext(s, p, 1, "thousand", "thousand");
    ExtractTwoMillionFiveHundredThousandWordsUpto4(p);
  }

  lemma ExtractTwoMillionFiveHundredThousandWordsUpto6(s: string)
    requires s == "two million five hundred thousand tons"
    ensures Words(Lower(s)) == ["two", "million", "five", "hundred", "thousand", "tons"]
  {
    var p := s[..33];
    LowerWordsNext(s, p, 1, "tons", "tons");
    ExtractTwoMillionFiveHundredThousandWordsUpto5(p);
  }

  lemma ExtractTwoMillionFiveHundredThousandWordsUpto7(s: string)
    requires s == "two million five hundred thousand tons of"
    ensures Words(Lower(s)) == ["two", "million", "five", "hundred", "thousand", "tons", "of"]
  {
    var p := s[..38];
    LowerWordsNext(s, p, 1, "of", "of");
    ExtractTwoMillionFiveHundredThousandWordsUpto6(p);
  }

  lemma ExtractTwoMillionFiveHundredThousandWordsUpto8(s: string)
    requires s == "two million five hundred thousand tons of spinning"
    ensures Words(Lower(s)) == ["two", "million", "five", "hundred", "thousand", "tons", "of", "spinning"]
  {
    var p := s[..41];
    LowerWordsNext(s, p, 1, "spinning", "spinning");
    ExtractTwoMillionFiveHundredThousandWordsUpto7(p);
  }

  lemma ExtractTwoMillionFiveHundredThousandWordsUpto9(s: string)
    requires s == "two million five hundred thousand tons of spinning metal"
    ensures Words(Lower(s)) == ["two", "million", "five", "hundred", "thousand", "tons", "of", "spinning", "metal"]
  {
    var p := s[..50];
    LowerWordsNext(s, p, 1, "metal", "metal");
    ExtractTwoMillionFiveHundredThousandWordsUpto8(p);
  }

  lemma ExtractTwoMillionFiveHundredThousandReadings0(ws: seq<string>, ts: seq<Token>, shortScale: bool)
    requires ws == ["two", "million", "five", "hundred"]
    requires ts == [UnitWord(2), ScaleWord(ScaleValue(1, shortScale)), UnitWord(5), HundredWord]
    ensures Tokens(ws, shortScale) == ts
  {
    forall i | 0 <= i < 4
      ensures Classify(ws[i], shortScale) == ts[i]
    {
      if i == 0 { ReadTwo(shortScale); }
      else if i == 1 { ReadMillion(shortScale); }
      else if i == 2 { ReadFive(shortScale); }
      else if i == 3 { ReadHundred(shortScale); }
    }
    TokensOfReadings(ws, ts, shortScale);
  }

  lemma ExtractTwoMillionFiveHundredThousandReadings1(ws: seq<string>, ts: seq<Token>, shortScale: bool)
    requires ws == ["thousand", "tons", "of", "spinning"]
    requires ts == [ScaleWord(ScaleValue(0, shortScale)), OtherWord, OtherWord, OtherWord]
    ensures Tokens(ws, shortScale) == ts
  {
    forall i | 0 <= i < 4
      ensures Classify(ws[i], shortScale) == ts[i]
    {
      if i == 0 { ReadThousand(shortScale); }
      else if i == 1 { ReadTons(shortScale); }
      else if i == 2 { ReadOf(shortScale); }
      else if i == 3 { ReadSpinning(shortScale); }
    }
    TokensOfReadings(ws, ts, shortScale);
  }

  lemma ExtractTwoMillionFiveHundredThousandReadings2(ws: seq<string>, ts: seq<Token>, shortScale: bool)
    requires ws == ["metal"]
    requires ts == [OtherWord]
    ensures Tokens(ws, shortScale) == ts
  {
    forall i | 0 <= i < 1
      ensures Classify(ws[i], shortScale) == ts[i]
    {
      if i == 0 { ReadMetal(shortScale); }
    }
    TokensOfReadings(ws, ts, shortScale);
  }

  lemma ExtractTwoMillionFiveHundredThousandWordChunks()
    ensures ["two", "million", "five", "hundred", "thousand", "tons", "of", "spinning", "metal"] == ["two", "million", "five", "hundred"] + ["thousand", "tons", "of", "spinning"] + ["metal"]
  {
  }

  lemma ExtractTwoMillionFiveHundredThousandTokenChunks(shortScale: bool)
    ensures [UnitWord(2), ScaleWord(ScaleValue(1, shortScale)), UnitWord(5), HundredWord, ScaleWord(ScaleValue(0, shortScale)), OtherWord, OtherWord, OtherWord, OtherWord] == [UnitWord(2), ScaleWord(ScaleValue(1, shortScale)), UnitWord(5), HundredWord] + [ScaleWord(ScaleValue(0, shortScale)), OtherWord, OtherWord, OtherWord] + [OtherWord]
  {
  }

  lemma ExtractTwoMillionFiveHundredThousandReadings(shortScale: bool)
    ensures Tokens(["two", "million", "five", "hundred", "thousand", "tons", "of", "spinning", "metal"], shortScale) == [UnitWord(2), ScaleWord(ScaleValue(1, shortScale)), UnitWord(5), HundredWord, ScaleWord(ScaleValue(0, shortScale)), OtherWord, OtherWord, OtherWord, OtherWord]
  {
    var w0, w1, w2 := ["two", "million", "five", "hundred"], ["thousand", "tons", "of", "spinning"], ["metal"];
    var t0, t1, t2 := [UnitWord(2), ScaleWord(ScaleValue(1, shortScale)), UnitWord(5), HundredWord], [ScaleWord(ScaleValue(0, shortScale)), OtherWord, OtherWord, OtherWord], [OtherWord];
    ExtractTwoMillionFiveHundredThousandReadings0(w0, t0, shortScale);
    ExtractTwoMillionFiveHundredThousandReadings1(w1, t1, shortScale);
    ExtractTwoMillionFiveHundredThousandReadings2(w2, t2, shortScale);
    TokensJoin(w0, w1, t0, t1, shortScale);
    TokensJoin(w0 + w1, w2, t0 + t1, t2, shortScale);
    ExtractTwoMillionFiveHundredThousandWordChunks();
    ExtractTwoMillionFiveHundredThousandTokenChunks(shortScale);
  }

  lemma ExtractTwoMillionFiveHundredThousandScan0(ts: seq<Token>)
    requires ts == [UnitWord(2), ScaleWord(1000000), UnitWord(5), HundredWord, ScaleWord(1000), OtherWord, OtherWord, OtherWord, OtherWord]
    ensures Scan(ts, None, false) == [2500000]
  {
    ExtractTwoMillionFiveHundredThousandScan1(ts[1..]);
  }

  lemma ExtractTwoMillionFiveHundredThousandScan1(ts: seq<Token>)
    requires ts == [ScaleWord(1000000), UnitWord(5), HundredWord, ScaleWord(1000), OtherWord, OtherWord, OtherWord, OtherWord]
    ensures Scan(ts, Some(Run(0, 2, UnitWord(2), false)), false) == [2500000]
  {
    ExtractTwoMillionFiveHundredThousandScan2(ts[1..]);
  }

  lemma ExtractTwoMillionFiveHundredThousandScan2(ts: seq<Token>)
    requires ts == [UnitWord(5), HundredWord, ScaleWord(1000), OtherWord, OtherWord, OtherWord, OtherWord]
    ensures Scan(ts, Some(Run(2000000, 0, ScaleWord(1000000), false)), false) == [2500000]
  {
    ExtractTwoMillionFiveHundredThousandScan3(ts[1..]);
  }

  lemma ExtractTwoMillionFiveHundredThousandScan3(ts: seq<Token>)
    requires ts == [HundredWord, ScaleWord(1000), OtherWord, OtherWord, OtherWord, OtherWord]
    ensures Scan(ts, Some(Run(2000000, 5, UnitWord(5), false)), false) == [2500000]
  {
    ExtractTwoMillionFiveHundredThousandScan4(ts[1..]);
  }

  lemma ExtractTwoMillionFiveHundredThousandScan4(ts: seq<Token>)
    requires ts == [ScaleWord(1000), OtherWord, OtherWord, OtherWord, OtherWord]
    ensures Scan(ts, Some(Run(2000000, 500, HundredWord, false)), false) == [2500000]
  {
    ExtractTwoMillionFiveHundredThousandScan5(ts[1..]);
  }

  lemma ExtractTwoMillionFiveHundredThousandScan5(ts: seq<Token>)
    requires ts == [OtherWord, OtherWord, OtherWord, OtherWord]
    ensures Scan(ts, Some(Run(2500000, 0, ScaleWord(1000), false)), false) == [2500000]
  {
    ExtractTwoMillionFiveHundredThousandScan6(ts[1..]);
  }

  lemma ExtractTwoMillionFiveHundredThousandScan6(ts: seq<Token>)
    requires ts == [OtherWord, OtherWord, OtherWord]
    ensures Scan(ts, None, false) == []
  {
    ExtractTwoMillionFiveHundredThousandScan7(ts[1..]);
  }

  lemma ExtractTwoMillionFiveHundredThousandScan7(ts: seq<Token>)
    requires ts == [OtherWord, OtherWord]
    ensures Scan(ts, None, false) == []
  {
    ExtractTwoMillionFiveHundredThousandScan8(ts[1..]);
  }

  lemma ExtractTwoMillionFiveHundredThousandScan8(ts: seq<Token>)
    requires ts == [OtherWord]
    ensures Scan(ts, None, false) == []
  {
  }

  /** test/test_parse.py:244-245 */
  lemma ExtractTwoMillionFiveHundredThousand()
    ensures ExtractNumber("two million five hundred thousand tons of spinning metal", true) == Some(2500000)
  {
    ExtractTwoMillionFiveHundredThousandWordsUpto9("two million five hundred thousand tons of spinning metal");
    ExtractTwoMillionFiveHundredThousandReadings(true);
    ScaleValuesMillion();
    ScaleValuesThousand();
    ExtractTwoMillionFiveHundredThousandScan0([UnitWord(2), ScaleWord(1000000), UnitWord(5), HundredWord, ScaleWord(1000), OtherWord, OtherWord, OtherWord, OtherWord]);
  }

  lemma ExtractSixTrillionWordsUpto1(s: string)
    requires s == "six"
    ensures Words(Lower(s)) == ["six"]
  {
    LowerWordsSingle(s, "six");
  }

  lemma ExtractSixTrillionWordsUpto2(s: string)
    requires s == "six trillion"
    ensures Words(Lower(s)) == ["six", "trillion"]
  {
    var p := s[..3];
    LowerWordsNext(s, p, 1, "trillion", "trillion");
    ExtractSixTrillionWordsUpto1(p);
  }

  lemma ExtractSixTrillionReadings0(ws: seq<string>, ts: seq<Token>, shortScale: bool)
    requires ws == ["six", "trillion"]
    requires ts == [UnitWord(6), ScaleWord(ScaleValue(3, shortScale))]
    ensures Tokens(ws, shortScale) == ts
  {
    forall i | 0 <= i < 2
      ensures Classify(ws[i], shortScale) == ts[i]
    {
      if i == 0 { ReadSix(shortScale); }
      else if i == 1 { ReadTrillion(shortScale); }
    }
    TokensOfReadings(ws, ts, shortScale);
  }

  lemma ExtractSixTrillionReadings(shortScale: bool)
    ensures Tokens(["six", "trillion"], shortScale) == [UnitWord(6), ScaleWord(ScaleValue(3, shortScale))]
  {
    ExtractSixTrillionReadings0(["six", "trillion"], [UnitWord(6), ScaleWord(ScaleValue(3, shortScale))], shortScale);
  }

  lemma ExtractSixTrillionScan0(ts: seq<Token>)
    requires ts == [UnitWord(6), ScaleWord(1000000000000)]
    ensures Scan(ts, None, false) == [6000000000000]
  {
    ExtractSixTrillionScan1(ts[1..]);
  }

  lemma ExtractSixTrillionScan1(ts: seq<Token>)
    requires ts == [ScaleWord(1000000000000)]
    ensures Scan(ts, Some(Run(0, 6, UnitWord(6), false)), false) == [6000000000000]
  {
  }

  /** test/test_parse.py:246 */
  lemma ExtractSixTrillion()
    ensures ExtractNumber("six trillion", true) == Some(6000000000000)
  {
    ExtractSixTrillionWordsUpto2("six trillion");
    ExtractSixTrillionReadings(true);
    ScaleValuesTrillion();
    ExtractSixTrillionScan0([UnitWord(6), ScaleWord(1000000000000)]);
  }

  lemma ExtractSixTrillionLongScaleScan0(ts: seq<Token>)
    requires ts == [UnitWord(6), ScaleWord(1000000000000000000)]
    ensures Scan(ts, None, false) == [6000000000000000000]
  {
    ExtractSixTrillionLongScaleScan1(ts[1..]);
  }

  lemma ExtractSixTrillionLongScaleScan1(ts: seq<Token>)
    requires ts == [ScaleWord(1000000000000000000)]
    ensures Scan(ts, Some(Run(0, 6, UnitWord(6), false)), false) == [6000000000000000000]
  {
  }

  /** test/test_parse.py:247-248 */
  lemma ExtractSixTrillionLongScale()
    ensures ExtractNumber("six trillion", false) == Some(6000000000000000000)
  {
    ExtractSixTrillionWordsUpto2("six trillion");
    ExtractSixTrillionReadings(false);
    ScaleValuesTrillion();
    ExtractSixTrillionLongScaleScan0([UnitWord(6), ScaleWord(1000000000000000000)]);
  }

  lemma ExtractBillionsOfYearsOlderWordsUpto1(s: string)
    requires s == "billions"
    ensures Words(Lower(s)) == ["billions"]
  {
    LowerWordsSingle(s, "billions");
  }

  lemma ExtractBillionsOfYearsOlderWordsUpto2(s: string)
    requires s == "billions of"
    ensures Words(Lower(s)) == ["billions", "of"]
  {
    var p := s[..8];
    LowerWordsNext(s, p, 1, "of", "of");
    ExtractBillionsOfYearsOlderWordsUpto1(p);
  }

  lemma ExtractBillionsOfYearsOlderWordsUpto3(s: string)
    requires s == "billions of years"
    ensures Words(Lower(s)) == ["billions", "of", "years"]
  {
    var p := s[..11];
    LowerWordsNext(s, p, 1, "years", "years");
    ExtractBillionsOfYearsOlderWordsUpto2(p);
  }

  lemma ExtractBillionsOfYearsOlderWordsUpto4(s: string)
    requires s == "billions of years older"
    ensures Words(Lower(s)) == ["billions", "of", "years", "older"]
  {
    var p := s[..17];
    LowerWordsNext(s, p, 1, "older", "older");
    ExtractBillionsOfYearsOlderWordsUpto3(p);
  }

  lemma ExtractBillionsOfYearsOlderReadings0(ws: seq<string>, ts: seq<Token>, shortScale: bool)
    requires ws == ["billions", "of", "years", "older"]
    requires ts == [ScaleWord(ScaleValue(2, shortScale)), OtherWord, OtherWord, OtherWord]
    ensures Tokens(ws, shortScale) == ts
  {
    forall i | 0 <= i < 4
      ensures Classify(ws[i], shortScale) == ts[i]
    {
      if i == 0 { ReadBillions(shortScale); }
      else if i == 1 { ReadOf(shortScale); }
      else if i == 2 { ReadYears(shortScale); }
      else if i == 3 { ReadOlder(shortScale); }
    }
    TokensOfReadings(ws, ts, shortScale);
  }

  lemma ExtractBillionsOfYearsOlderReadings(shortScale: bool)
    ensures Tokens(["billions", "of", "years", "older"], shortScale) == [ScaleWord(ScaleValue(2, shortScale)), OtherWord, OtherWord, OtherWord]
  {
    ExtractBillionsOfYearsOlderReadings0(["billions", "of", "years", "older"], [ScaleWord(ScaleValue(2, shortScale)), OtherWord, OtherWord, OtherWord], shortScale);
  }

  lemma ExtractBillionsOfYearsOlderScan0(ts: seq<Token>)
    requires ts == [ScaleWord(1000000000), OtherWord, OtherWord, OtherWord]
    ensures Scan(ts, None, false) == [1000000000]
  {
    ExtractBillionsOfYearsOlderScan1(ts[1..]);
  }

  lemma ExtractBillionsOfYearsOlderScan1(ts: seq<Token>)
    requires ts == [OtherWord, OtherWord, OtherWord]
    ensures Scan(ts, Some(Run(1000000000, 0, ScaleWord(1000000000), false)), false) == [1000000000]
  {
    ExtractBillionsOfYearsOlderScan2(ts[1..]);
  }

  lemma ExtractBillionsOfYearsOlderScan2(ts: seq<Token>)
    requires ts == [OtherWord, OtherWord]
    ensures Scan(ts, None, false) == []
  {
    ExtractBillionsOfYearsOlderScan3(ts[1..]);
  }

  lemma ExtractBillionsOfYearsOlderScan3(ts: seq<Token>)
    requires ts == [OtherWord]
    ensures Scan(ts, None, false) == []
  {
  }

  /** test/test_parse.py:252-253 */
  lemma ExtractBillionsOfYearsOlder()
    ensures ExtractNumber("billions of years older", true) == Some(1000000000)
  {
    ExtractBillionsOfYearsOlderWordsUpto4("billions of years older");
    ExtractBillionsOfYearsOlderReadings(true);
    ScaleValuesBillion();
    ExtractBillionsOfYearsOlderScan0([ScaleWord(1000000000), OtherWord, OtherWord, OtherWord]);
  }

  lemma ExtractBillionsOfYearsOlderLongScaleScan0(ts: seq<Token>)
    requires ts == [ScaleWord(1000000000000), OtherWord, OtherWord, OtherWord]
    ensures Scan(ts, None, false) == [1000000000000]
  {
    ExtractBillionsOfYearsOlderLongScaleScan1(ts[1..]);
  }

  lemma ExtractBillionsOfYearsOlderLongScaleScan1(ts: seq<Token>)
    requires ts == [OtherWord, OtherWord, OtherWord]
    ensures Scan(ts, Some(Run(1000000000000, 0, ScaleWord(1000000000000), false)), false) == [1000000000000]
  {
    ExtractBillionsOfYearsOlderLongScaleScan2(ts[1..]);
  }

  lemma ExtractBillionsOfYearsOlderLongScaleScan2(ts: seq<Token>)
    requires ts == [OtherWord, OtherWord]
    ensures Scan(ts, None, false) == []
  {
    ExtractBillionsOfYearsOlderLongScaleScan3(ts[1..]);
  }

  lemma ExtractBillionsOfYearsOlderLongScaleScan3(ts: seq<Token>)
    requires ts == [OtherWord]
    ensures Scan(ts, None, false) == []
  {
  }

  /** test/test_parse.py:254-256 */
  lemma ExtractBillionsOfYearsOlderLongScale()
    ensures ExtractNumber("billions of years older", false) == Some(1000000000000)
  {
    ExtractBillionsOfYearsOlderWordsUpto4("billions of years older");
    ExtractBillionsOfYearsOlderReadings(false);
    ScaleValuesBillion();
    ExtractBillionsOfYearsOlderLongScaleScan0([ScaleWord(1000000000000), OtherWord, OtherWord, OtherWord]);
  }

  lemma ExtractOneHundredThousandWordsUpto1(s: string)
    requires s == "one"
    ensures Words(Lower(s)) == ["one"]
  {
    LowerWordsSingle(s, "one");
  }

  lemma ExtractOneHundredThousandWordsUpto2(s: string)
    requires s == "one hundred"
    ensures Words(Lower(s)) == ["one", "hundred"]
  {
    var p := s[..3];
    LowerWordsNext(s, p, 1, "hundred", "hundred");
    ExtractOneHundredThousandWordsUpto1(p);
  }

  lemma ExtractOneHundredThousandWordsUpto3(s: string)
    requires s == "one hundred thousand"
    ensures Words(Lower(s)) == ["one", "hundred", "thousand"]
  {
    var p := s[..11];
    LowerWordsNext(s, p, 1, "thousand", "thousand");
    ExtractOneHundredThousandWordsUpto2(p);
  }

  lemma ExtractOneHundredThousandReadings0(ws: seq<string>, ts: seq<Token>, shortScale: bool)
    requires ws == ["one", "hundred", "thousand"]
    requires ts == [UnitWord(1), HundredWord, ScaleWord(ScaleValue(0, shortScale))]
    ensures Tokens(ws, shortScale) == ts
  {
    forall i | 0 <= i < 3
      ensures Classify(ws[i], shortScale) == ts[i]
    {
      if i == 0 { ReadOne(shortScale); }
      else if i == 1 { ReadHundred(shortScale); }
      else if i == 2 { ReadThousand(shortScale); }
    }
    TokensOfReadings(ws, ts, shortScale);
  }

  lemma ExtractOneHundredThousandReadings(shortScale: bool)
    ensures Tokens(["one", "hundred", "thousand"], shortScale) == [UnitWord(1), HundredWord, ScaleWord(ScaleValue(0, shortScale))]
  {
    ExtractOneHundredThousandReadings0(["one", "hundred", "thousand"], [UnitWord(1), HundredWord, ScaleWord(ScaleValue(0, shortScale))], shortScale);
  }

  lemma ExtractOneHundredThousandScan0(ts: seq<Token>)
    requires ts == [UnitWord(1), HundredWord, ScaleWord(1000)]
    ensures Scan(ts, None, false) == [100000]
  {
    ExtractOneHundredThousandScan1(ts[1..]);
  }

  lemma ExtractOneHundredThousandScan1(ts: seq<Token>)
    requires ts == [HundredWord, ScaleWord(1000)]
    ensures Scan(ts, Some(Run(0, 1, UnitWord(1), false)), false) == [100000]
  {
    ExtractOneHundredThousandScan2(ts[1..]);
  }

  lemma ExtractOneHundredThousandScan2(ts: seq<Token>)
    requires ts == [ScaleWord(1000)]
    ensures Scan(ts, Some(Run(0, 100, HundredWord, false)), false) == [100000]
  {
  }

  /** test/test_parse.py:257 */
  lemma ExtractOneHundredThousand()
    ensures ExtractNumber("one hundred thousand", true) == Some(100000)
  {
    ExtractOneHundredThousandWordsUpto3("one hundred thousand");
    ExtractOneHundredThousandReadings(true);
    ScaleValuesThousand();
    ExtractOneHundredThousandScan0([UnitWord(1), HundredWord, ScaleWord(1000)]);
  }

  lemma ExtractMinus2WordsUpto1(s: string)
    requires s == "minus"
    ensures Words(Lower(s)) == ["minus"]
  {
    LowerWordsSingle(s, "minus");
  }

  lemma ExtractMinus2WordsUpto2(s: string)
    requires s == "minus 2"
    ensures Words(Lower(s)) == ["minus", "2"]
  {
    var p := s[..5];
    LowerWordsNext(s, p, 1, "2", "2");
    ExtractMinus2WordsUpto1(p);
  }

  lemma ExtractMinus2Readings0(ws: seq<string>, ts: seq<Token>, shortScale: bool)
    requires ws == ["minus", "2"]
    requires ts == [SignWord, Digits(2)]
    ensures Tokens(ws, shortScale) == ts
  {
    forall i | 0 <= i < 2
      ensures Classify(ws[i], shortScale) == ts[i]
    {
      if i == 0 { ReadMinus(shortScale); }
      else if i == 1 { Read2(shortScale); }
    }
    TokensOfReadings(ws, ts, shortScale);
  }

  lemma ExtractMinus2Readings(shortScale: bool)
    ensures Tokens(["minus", "2"], shortScale) == [SignWord, Digits(2)]
  {
    ExtractMinus2Readings0(["minus", "2"], [SignWord, Digits(2)], shortScale);
  }

  lemma ExtractMinus2Scan0(ts: seq<Token>)
    requires ts == [SignWord, Digits(2)]
    ensures Scan(ts, None, false) == [-2]
  {
    ExtractMinus2Scan1(ts[1..]);
  }

  lemma ExtractMinus2Scan1(ts: seq<Token>)
    requires ts == [Digits(2)]
    ensures Scan(ts, None, true) == [-2]
  {
  }

  /** test/test_parse.py:258 */
  lemma ExtractMinus2()
    ensures ExtractNumber("minus 2", true) == Some(-2)
  {
    ExtractMinus2WordsUpto2("minus 2");
    ExtractMinus2Readings(true);
    ExtractMinus2Scan0([SignWord, Digits(2)]);
  }

  lemma ExtractNegativeSeventyWordsUpto1(s: string)
    requires s == "negative"
    ensures Words(Lower(s)) == ["negative"]
  {
    LowerWordsSingle(s, "negative");
  }

  lemma ExtractNegativeSeventyWordsUpto2(s: string)
    requires s == "negative seventy"
    ensures Words(Lower(s)) == ["negative", "seventy"]
  {
    var p := s[..8];
    LowerWordsNext(s, p, 1, "seventy", "seventy");
    ExtractNegativeSeventyWordsUpto1(p);
  }

  lemma ExtractNegativeSeventyReadings0(ws: seq<string>, ts: seq<Token>, shortScale: bool)
    requires ws == ["negative", "seventy"]
    requires ts == [SignWord, TensWord(70)]
    ensures Tokens(ws, shortScale) == ts
  {
    forall i | 0 <= i < 2
      ensures Classify(ws[i], shortScale) == ts[i]
    {
      if i == 0 { ReadNegative(shortScale); }
      else if i == 1 { ReadSeventy(shortScale); }
    }
    TokensOfReadings(ws, ts, shortScale);
  }

  lemma ExtractNegativeSeventyReadings(shortScale: bool)
    ensures Tokens(["negative", "seventy"], shortScale) == [SignWord, TensWord(70)]
  {
    ExtractNegativeSeventyReadings0(["negative", "seventy"], [SignWord, TensWord(70)], shortScale);
  }

  lemma ExtractNegativeSeventyScan0(ts: seq<Token>)
    requires ts == [SignWord, TensWord(70)]
    ensures Scan(ts, None, false) == [-70]
  {
    ExtractNegativeSeventyScan1(ts[1..]);
  }

  lemma ExtractNegativeSeventyScan1(ts: seq<Token>)
    requires ts == [TensWord(70)]
    ensures Scan(ts, None, true) == [-70]
  {
  }

  /** test/test_parse.py:259 */
  lemma ExtractNegativeSeventy()
    ensures ExtractNumber("negative seventy", true) == Some(-70)
  {
    ExtractNegativeSeventyWordsUpto2("negative seventy");
    ExtractNegativeSeventyReadings(true);
    ExtractNegativeSeventyScan0([SignWord, TensWord(70)]);
  }

  lemma ExtractThousandMillionWordsUpto1(s: string)
    requires s == "thousand"
    ensures Words(Lower(s)) == ["thousand"]
  {
    LowerWordsSingle(s, "thousand");
  }

  lemma ExtractThousandMillionWordsUpto2(s: string)
    requires s == "thousand million"
    ensures Words(Lower(s)) == ["thousand", "million"]
  {
    var p := s[..8];
    LowerWordsNext(s, p, 1, "million", "million");
    ExtractThousandMillionWordsUpto1(p);
  }

  lemma ExtractThousandMillionReadings0(ws: seq<string>, ts: seq<Token>, shortScale: bool)
    requires ws == ["thousand", "million"]
    requires ts == [ScaleWord(ScaleValue(0, shortScale)), ScaleWord(ScaleValue(1, shortScale))]
    ensures Tokens(ws, shortScale) == ts
  {
    forall i | 0 <= i < 2
      ensures Classify(ws[i], shortScale) == ts[i]
    {
      if i == 0 { ReadThousand(shortScale); }
      else if i == 1 { ReadMillion(shortScale); }
    }
    TokensOfReadings(ws, ts, shortScale);
  }

  lemma ExtractThousandMillionReadings(shortScale: bool)
    ensures Tokens(["thousand", "million"], shortScale) == [ScaleWord(ScaleValue(0, shortScale)), ScaleWord(ScaleValue(1, shortScale))]
  {
    ExtractThousandMillionReadings0(["thousand", "million"], [ScaleWord(ScaleValue(0, shortScale)), ScaleWord(ScaleValue(1, shortScale))], shortScale);
  }

  lemma ExtractThousandMillionScan0(ts: seq<Token>)
    requires ts == [ScaleWord(1000), ScaleWord(1000000)]
    ensures Scan(ts, None, false) == [1000000000]
  {
    ExtractThousandMillionScan1(ts[1..]);
  }

  lemma ExtractThousandMillionScan1(ts: seq<Token>)
    requires ts == [ScaleWord(1000000)]
    ensures Scan(ts, Some(Run(1000, 0, ScaleWord(1000), false)), false) == [1000000000]
  {
    var r := Add(Run(1000, 0, ScaleWord(1000), false), ScaleWord(1000000));
    assert 1000 % 1000000 == 1000;
    assert r == Run(1000000000, 0, ScaleWord(1000000), false);
    assert ts[1..] == [];
  }

  /** test/test_parse.py:260 */
  lemma ExtractThousandMillion()
    ensures ExtractNumber("thousand million", true) == Some(1000000000)
  {
    ExtractThousandMillionWordsUpto2("thousand million");
    ExtractThousandMillionReadings(true);
    ScaleValuesMillion();
    ScaleValuesThousand();
    ExtractThousandMillionScan0([ScaleWord(1000), ScaleWord(1000000)]);
  }

  lemma ExtractTwentyThousandWordsUpto1(s: string)
    requires s == "twenty"
    ensures Words(Lower(s)) == ["twenty"]
  {
    LowerWordsSingle(s, "twenty");
  }

  lemma ExtractTwentyThousandWordsUpto2(s: string)
    requires s == "twenty thousand"
    ensures Words(Lower(s)) == ["twenty", "thousand"]
  {
    var p := s[..6];
    LowerWordsNext(s, p, 1, "thousand", "thousand");
    ExtractTwentyThousandWordsUpto1(p);
  }

  lemma ExtractTwentyThousandReadings0(ws: seq<string>, ts: seq<Token>, shortScale: bool)
    requires ws == ["twenty", "thousand"]
    requires ts == [TensWord(20), ScaleWord(ScaleValue(0, shortScale))]
    ensures Tokens(ws, shortScale) == ts
  {
    forall i | 0 <= i < 2
      ensures Classify(ws[i], shortScale) == ts[i]
    {
      if i == 0 { ReadTwenty(shortScale); }
      else if i == 1 { ReadThousand(shortScale); }
    }
    TokensOfReadings(ws, ts, shortScale);
  }

  lemma ExtractTwentyThousandReadings(shortScale: bool)
    ensures Tokens(["twenty", "thousand"], shortScale) == [TensWord(20), ScaleWord(ScaleValue(0, shortScale))]
  {
    ExtractTwentyThousandReadings0(["twenty", "thousand"], [TensWord(20), ScaleWord(ScaleValue(0, shortScale))], shortScale);
  }

  lemma ExtractTwentyThousandScan0(ts: seq<Token>)
    requires ts == [TensWord(20), ScaleWord(1000)]
    ensures Scan(ts, None, false) == [20000]
  {
    ExtractTwentyThousandScan1(ts[1..]);
  }

  lemma ExtractTwentyThousandScan1(ts: seq<Token>)
    requires ts == [ScaleWord(1000)]
    ensures Scan(ts, Some(Run(0, 20, TensWord(20), false)), false) == [20000]
  {
  }

  /** test/test_parse.py:264 */
  lemma ExtractTwentyThousand()
    ensures ExtractNumber("twenty thousand", true) == Some(20000)
  {
    ExtractTwentyThousandWordsUpto2("twenty thousand");
    ExtractTwentyThousandReadings(true);
    ScaleValuesThousand();
    ExtractTwentyThousandScan0([TensWord(20), ScaleWord(1000)]);
  }

  lemma ExtractFiftyMillionWordsUpto1(s: string)
    requires s == "fifty"
    ensures Words(Lower(s)) == ["fifty"]
  {
    LowerWordsSingle(s, "fifty");
  }

  lemma ExtractFiftyMillionWordsUpto2(s: string)
    requires s == "fifty million"
    ensures Words(Lower(s)) == ["fifty", "million"]
  {
    var p := s[..5];
    LowerWordsNext(s, p, 1, "million", "million");
    ExtractFiftyMillionWordsUpto1(p);
  }

  lemma ExtractFiftyMillionReadings0(ws: seq<string>, ts: seq<Token>, shortScale: bool)
    requires ws == ["fifty", "million"]
    requires ts == [TensWord(50), ScaleWord(ScaleValue(1, shortScale))]
    ensures Tokens(ws, shortScale) == ts
  {
    forall i | 0 <= i < 2
      ensures Classify(ws[i], shortScale) == ts[i]
    {
      if i == 0 { ReadFifty(shortScale); }
      else if i == 1 { ReadMillion(shortScale); }
    }
    TokensOfReadings(ws, ts, shortScale);
  }

  lemma ExtractFiftyMillionReadings(shortScale: bool)
    ensures Tokens(["fifty", "million"], shortScale) == [TensWord(50), ScaleWord(ScaleValue(1, shortScale))]
  {
    ExtractFiftyMillionReadings0(["fifty", "million"], [TensWord(50), ScaleWord(ScaleValue(1, shortScale))], shortScale);
  }

  lemma ExtractFiftyMillionScan0(ts: seq<Token>)
    requires ts == [TensWord(50), ScaleWord(1000000)]
    ensures Scan(ts, None, false) == [50000000]
  {
    ExtractFiftyMillionScan1(ts[1..]);
  }

  lemma ExtractFiftyMillionScan1(ts: seq<Token>)
    requires ts == [ScaleWord(1000000)]
    ensures Scan(ts, Some(Run(0, 50, TensWord(50), false)), false) == [50000000]
  {
  }

  /** test/test_parse.py:265 */
  lemma ExtractFiftyMillion()
    ensures ExtractNumber("fifty million", true) == Some(50000000)
  {
    ExtractFiftyMillionWordsUpto2("fifty million");
    ExtractFiftyMillionReadings(true);
    ScaleValuesMillion();
    ExtractFiftyMillionScan0([TensWord(50), ScaleWord(1000000)]);
  }

  lemma ExtractEightHundredTrillionTwoHundredWordsUpto1(s: string)
    requires s == "eight"
    ensures Words(Lower(s)) == ["eight"]
  {
    LowerWordsSingle(s, "eight");
  }

  lemma ExtractEightHundredTrillionTwoHundredWordsUpto2(s: string)
    requires s == "eight hundred"
    ensures Words(Lower(s)) == ["eight", "hundred"]
  {
    var p := s[..5];
    LowerWordsNext(s, p, 1, "hundred", "hundred");
    ExtractEightHundredTrillionTwoHundredWordsUpto1(p);
  }

  lemma ExtractEightHundredTrillionTwoHundredWordsUpto3(s: string)
    requires s == "eight hundred trillion"
    ensures Words(Lower(s)) == ["eight", "hundred", "trillion"]
  {
    var p := s[..13];
    LowerWordsNext(s, p, 1, "trillion", "trillion");
    ExtractEightHundredTrillionTwoHundredWordsUpto2(p);
  }

  lemma ExtractEightHundredTrillionTwoHundredWordsUpto4(s: string)
    requires s == "eight hundred trillion two"
    ensures Words(Lower(s)) == ["eight", "hundred", "trillion", "two"]
  {
    var p := s[..22];
    LowerWordsNext(s, p, 1, "two", "two");
    ExtractEightHundredTrillionTwoHundredWordsUpto3(p);
  }

  lemma ExtractEightHundredTrillionTwoHundredWordsUpto5(s: string)
    requires s == "eight hundred trillion two hundred"
    ensures Words(Lower(s)) == ["eight", "hundred", "trillion", "two", "hundred"]
  {
    var p := s[..26];
    LowerWordsNext(s, p, 1, "hundred", "hundred");
    ExtractEightHundredTrillionTwoHundredWordsUpto4(p);
  }

  lemma ExtractEightHundredTrillionTwoHundredWordsGap5Spaces8(s: string)
    requires s == "eight hundred trillion two hundred        "
    ensures Words(Lower(s)) == ["eight", "hundred", "trillion", "two", "hundred"]
  {
    var p := s[..34];
    LowerWordsTrailing(s, p, 8);
    ExtractEightHundredTrillionTwoHundredWordsUpto5(p);
  }

  lemma ExtractEightHundredTrillionTwoHundredWordsGap5Spaces16(s: string)
    requires s == "eight hundred trillion two hundred                "
    ensures Words(Lower(s)) == ["eight", "hundred", "trillion", "two", "hundred"]
  {
    var p := s[..42];
    LowerWordsTrailing(s, p, 8);
    ExtractEightHundredTrillionTwoHundredWordsGap5Spaces8(p);
  }

  lemma ExtractEightHundredTrillionTwoHundredWordsGap5Spaces24(s: string)
    requires s == "eight hundred trillion two hundred                        "
    ensures Words(Lower(s)) == ["eight", "hundred", "trillion", "two", "hundred"]
  {
    var p := s[..50];
    LowerWordsTrailing(s, p, 8);
    ExtractEightHundredTrillionTwoHundredWordsGap5Spaces16(p);
  }

  lemma ExtractEightHundredTrillionTwoHundredWordsGap5Spaces32(s: string)
    requires s == "eight hundred trillion two hundred                                "
    ensures Words(Lower(s)) == ["eight", "hundred", "trillion", "two", "hundred"]
  {
    var p := s[..58];
    LowerWordsTrailing(s, p, 8);
    ExtractEightHundredTrillionTwoHundredWordsGap5Spaces24(p);
  }

  lemma ExtractEightHundredTrillionTwoHundredWordsGap5Spaces40(s: string)
    requires s == "eight hundred trillion two hundred                                        "
    ensures Words(Lower(s)) == ["eight", "hundred", "trillion", "two", "hundred"]
  {
    var p := s[..66];
    LowerWordsTrailing(s, p, 8);
    ExtractEightHundredTrillionTwoHundredWordsGap5Spaces32(p);
  }

  lemma ExtractEightHundredTrillionTwoHundredWordsGap5Spaces41(s: string)
    requires s == "eight hundred trillion two hundred                                         "
    ensures Words(Lower(s)) == ["eight", "hundred", "trillion", "two", "hundred"]
  {
    var p := s[..74];
    LowerWordsTrailing(s, p, 1);
    ExtractEightHundredTrillionTwoHundredWordsGap5Spaces40(p);
  }

  lemma ExtractEightHundredTrillionTwoHundredWordsUpto6(s: string)
    requires s == "eight hundred trillion two hundred                                         fifty"
    ensures Words(Lower(s)) == ["eight", "hundred", "trillion", "two", "hundred", "fifty"]
  {
    var p := s[..75];
    LowerWordsAfterSpace(s, p, "fifty", "fifty");
    ExtractEightHundredTrillionTwoHundredWordsGap5Spaces41(p);
  }

  lemma ExtractEightHundredTrillionTwoHundredWordsUpto7(s: string)
    requires s == "eight hundred trillion two hundred                                         fifty seven"
    ensures Words(Lower(s)) == ["eight", "hundred", "trillion", "two", "hundred", "fifty", "seven"]
  {
    var p := s[..80];
    LowerWordsNext(s, p, 1, "seven", "seven");
    ExtractEightHundredTrillionTwoHundredWordsUpto6(p);
  }

  lemma ExtractEightHundredTrillionTwoHundredReadings0(ws: seq<string>, ts: seq<Token>, shortScale: bool)
    requires ws == ["eight", "hundred", "trillion", "two"]
    requires ts == [UnitWord(8), HundredWord, ScaleWord(ScaleValue(3, shortScale)), UnitWord(2)]
    ensures Tokens(ws, shortScale) == ts
  {
    forall i | 0 <= i < 4
      ensures Classify(ws[i], shortScale) == ts[i]
    {
      if i == 0 { ReadEight(shortScale); }
      else if i == 1 { ReadHundred(shortScale); }
      else if i == 2 { ReadTrillion(shortScale); }
      else if i == 3 { ReadTwo(shortScale); }
    }
    TokensOfReadings(ws, ts, shortScale);
  }

  lemma ExtractEightHundredTrillionTwoHundredReadings1(ws: seq<string>, ts: seq<Token>, shortScale: bool)
    requires ws == ["hundred", "fifty", "seven"]
    requires ts == [HundredWord, TensWord(50), UnitWord(7)]
    ensures Tokens(ws, shortScale) == ts
  {
    forall i | 0 <= i < 3
      ensures Classify(ws[i], shortScale) == ts[i]
    {
      if i == 0 { ReadHundred(shortScale); }
      else if i == 1 { ReadFifty(shortScale); }
      else if i == 2 { ReadSeven(shortScale); }
    }
    TokensOfReadings(ws, ts, shortScale);
  }

  lemma ExtractEightHundredTrillionTwoHundredWordChunks()
    ensures ["eight", "hundred", "trillion", "two", "hundred", "fifty", "seven"] == ["eight", "hundred", "trillion", "two"] + ["hundred", "fifty", "seven"]
  {
  }

  lemma ExtractEightHundredTrillionTwoHundredTokenChunks(shortScale: bool)
    ensures [UnitWord(8), HundredWord, ScaleWord(ScaleValue(3, shortScale)), UnitWord(2), HundredWord, TensWord(50), UnitWord(7)] == [UnitWord(8), HundredWord, ScaleWord(ScaleValue(3, shortScale)), UnitWord(2)] + [HundredWord, TensWord(50), UnitWord(7)]
  {
  }

  lemma ExtractEightHundredTrillionTwoHundredReadings(shortScale: bool)
    ensures Tokens(["eight", "hundred", "trillion", "two", "hundred", "fifty", "seven"], shortScale) == [UnitWord(8), HundredWord, ScaleWord(ScaleValue(3, shortScale)), UnitWord(2), HundredWord, TensWord(50), UnitWord(7)]
  {
    var w0, w1 := ["eight", "hundred", "trillion", "two"], ["hundred", "fifty", "seven"];
    var t0, t1 := [UnitWord(8), HundredWord, ScaleWord(ScaleValue(3, shortScale)), UnitWord(2)], [HundredWord, TensWord(50), UnitWord(7)];
    ExtractEightHundredTrillionTwoHundredReadings0(w0, t0, shortScale);
    ExtractEightHundredTrillionTwoHundredReadings1(w1, t1, shortScale);
    TokensJoin(w0, w1, t0, t1, shortScale);
    ExtractEightHundredTrillionTwoHundredWordChunks();
    ExtractEightHundredTrillionTwoHundredTokenChunks(shortScale);
  }

  lemma ExtractEightHundredTrillionTwoHundredScan0(ts: seq<Token>)
    requires ts == [UnitWord(8), HundredWord, ScaleWord(1000000000000), UnitWord(2), HundredWord, TensWord(50), UnitWord(7)]
    ensures Scan(ts, None, false) == [800000000000257]
  {
    ExtractEightHundredTrillionTwoHundredScan1(ts[1..]);
  }

  lemma ExtractEightHundredTrillionTwoHundredScan1(ts: seq<Token>)
    requires ts == [HundredWord, ScaleWord(1000000000000), UnitWord(2), HundredWord, TensWord(50), UnitWord(7)]
    ensures Scan(ts, Some(Run(0, 8, UnitWord(8), false)), false) == [800000000000257]
  {
    ExtractEightHundredTrillionTwoHundredScan2(ts[1..]);
  }

  lemma ExtractEightHundredTrillionTwoHundredScan2(ts: seq<Token>)
    requires ts == [ScaleWord(1000000000000), UnitWord(2), HundredWord, TensWord(50), UnitWord(7)]
    ensures Scan(ts, Some(Run(0, 800, HundredWord, false)), false) == [800000000000257]
  {
    ExtractEightHundredTrillionTwoHundredScan3(ts[1..]);
  }

  lemma ExtractEightHundredTrillionTwoHundredScan3(ts: seq<Token>)
    requires ts == [UnitWord(2), HundredWord, TensWord(50), UnitWord(7)]
    ensures Scan(ts, Some(Run(800000000000000, 0, ScaleWord(1000000000000), false)), false) == [800000000000257]
  {
    ExtractEightHundredTrillionTwoHundredScan4(ts[1..]);
  }

  lemma ExtractEightHundredTrillionTwoHundredScan4(ts: seq<Token>)
    requires ts == [HundredWord, TensWord(50), UnitWord(7)]
    ensures Scan(ts, Some(Run(800000000000000, 2, UnitWord(2), false)), false) == [800000000000257]
  {
    ExtractEightHundredTrillionTwoHundredScan5(ts[1..]);
  }

  lemma ExtractEightHundredTrillionTwoHundredScan5(ts: seq<Token>)
    requires ts == [TensWord(50), UnitWord(7)]
    ensures Scan(ts, Some(Run(800000000000000, 200, HundredWord, false)), false) == [800000000000257]
  {
    ExtractEightHundredTrillionTwoHundredScan6(ts[1..]);
  }

  lemma ExtractEightHundredTrillionTwoHundredScan6(ts: seq<Token>)
    requires ts == [UnitWord(7)]
    ensures Scan(ts, Some(Run(800000000000000, 250, TensWord(50), false)), false) == [800000000000257]
  {
  }

  /** test/test_parse.py:279-280 */
  lemma ExtractEightHundredTrillionTwoHundred()
    ensures ExtractNumber("eight hundred trillion two hundred                                         fifty seven", true) == Some(800000000000257)
  {
    ExtractEightHundredTrillionTwoHundredWordsUpto7("eight hundred trillion two hundred                                         fifty seven");
    ExtractEightHundredTrillionTwoHundredReadings(true);
    ScaleValuesTrillion();
    ExtractEightHundredTrillionTwoHundredScan0([UnitWord(8), HundredWord, ScaleWord(1000000000000), UnitWord(2), HundredWord, TensWord(50), UnitWord(7)]);
  }

  lemma ExtractTheTennisPlayerIsFastWordsUpto1(s: string)
    requires s == "The"
    ensures Words(Lower(s)) == ["the"]
  {
    LowerWordsSingle(s, "the");
  }

  lemma ExtractTheTennisPlayerIsFastWordsUpto2(s: string)
    requires s == "The tennis"
    ensures Words(Lower(s)) == ["the", "tennis"]
  {
    var p := s[..3];
    LowerWordsNext(s, p, 1, "tennis", "tennis");
    ExtractTheTennisPlayerIsFastWordsUpto1(p);
  }

  lemma ExtractTheTennisPlayerIsFastWordsUpto3(s: string)
    requires s == "The tennis player"
    ensures Words(Lower(s)) == ["the", "tennis", "player"]
  {
    var p := s[..10];
    LowerWordsNext(s, p, 1, "player", "player");
    ExtractTheTennisPlayerIsFastWordsUpto2(p);
  }

  lemma ExtractTheTennisPlayerIsFastWordsUpto4(s: string)
    requires s == "The tennis player is"
    ensures Words(Lower(s)) == ["the", "tennis", "player", "is"]
  {
    var p := s[..17];
    LowerWordsNext(s, p, 1, "is", "is");
    ExtractTheTennisPlayerIsFastWordsUpto3(p);
  }

  lemma ExtractTheTennisPlayerIsFastWordsUpto5(s: string)
    requires s == "The tennis player is fast"
    ensures Words(Lower(s)) == ["the", "tennis", "player", "is", "fast"]
  {
    var p := s[..20];
    LowerWordsNext(s, p, 1, "fast", "fast");
    ExtractTheTennisPlayerIsFastWordsUpto4(p);
  }

  lemma ExtractTheTennisPlayerIsFastReadings0(ws: seq<string>, ts: seq<Token>, shortScale: bool)
    requires ws == ["the", "tennis", "player", "is"]
    requires ts == [OtherWord, OtherWord, OtherWord, OtherWord]
    ensures Tokens(ws, shortScale) == ts
  {
    forall i | 0 <= i < 4
      ensures Classify(ws[i], shortScale) == ts[i]
    {
      if i == 0 { ReadThe(shortScale); }
      else if i == 1 { ReadTennis(shortScale); }
      else if i == 2 { ReadPlayer(shortScale); }
      else if i == 3 { ReadIs(shortScale); }
    }
    TokensOfReadings(ws, ts, shortScale);
  }

  lemma ExtractTheTennisPlayerIsFastReadings1(ws: seq<string>, ts: seq<Token>, shortScale: bool)
    requires ws == ["fast"]
    requires ts == [OtherWord]
    ensures Tokens(ws, shortScale) == ts
  {
    forall i | 0 <= i < 1
      ensures Classify(ws[i], shortScale) == ts[i]
    {
      if i == 0 { ReadFast(shortScale); }
    }
    TokensOfReadings(ws, ts, shortScale);
  }

  lemma ExtractTheTennisPlayerIsFastWordChunks()
    ensures ["the", "tennis", "player", "is", "fast"] == ["the", "tennis", "player", "is"] + ["fast"]
  {
  }

  lemma ExtractTheTennisPlayerIsFastTokenChunks(shortScale: bool)
    ensures [OtherWord, OtherWord, OtherWord, OtherWord, OtherWord] == [OtherWord, OtherWord, OtherWord, OtherWord] + [OtherWord]
  {
  }

  lemma ExtractTheTennisPlayerIsFastReadings(shortScale: bool)
    ensures Tokens(["the", "tennis", "player", "is", "fast"], shortScale) == [OtherWord, OtherWord, OtherWord, OtherWord, OtherWord]
  {
    var w0, w1 := ["the", "tennis", "player", "is"], ["fast"];
    var t0, t1 := [OtherWord, OtherWord, OtherWord, OtherWord], [OtherWord];
    ExtractTheTennisPlayerIsFastReadings0(w0, t0, shortScale);
    ExtractTheTennisPlayerIsFastReadings1(w1, t1, shortScale);
    TokensJoin(w0, w1, t0, t1, shortScale);
    ExtractTheTennisPlayerIsFastWordChunks();
    ExtractTheTennisPlayerIsFastTokenChunks(shortScale);
  }

  lemma ExtractTheTennisPlayerIsFastScan0(ts: seq<Token>)
    requires ts == [OtherWord, OtherWord, OtherWord, OtherWord, OtherWord]
    ensures Scan(ts, None, false) == []
  {
    ExtractTheTennisPlayerIsFastScan1(ts[1..]);
  }

  lemma ExtractTheTennisPlayerIsFastScan1(ts: seq<Token>)
    requires ts == [OtherWord, OtherWord, OtherWord, OtherWord]
    ensures Scan(ts, None, false) == []
  {
    ExtractTheTennisPlayerIsFastScan2(ts[1..]);
  }

  lemma ExtractTheTennisPlayerIsFastScan2(ts: seq<Token>)
    requires ts == [OtherWord, OtherWord, OtherWord]
    ensures Scan(ts, None, false) == []
  {
    ExtractTheTennisPlayerIsFastScan3(ts[1..]);
  }

  lemma ExtractTheTennisPlayerIsFastScan3(ts: seq<Token>)
    requires ts == [OtherWord, OtherWord]
    ensures Scan(ts, None, false) == []
  {
    ExtractTheTennisPlayerIsFastScan4(ts[1..]);
  }

  lemma ExtractTheTennisPlayerIsFastScan4(ts: seq<Token>)
    requires ts == [OtherWord]
    ensures Scan(ts, None, false) == []
  {
  }

  /** test/test_parse.py:286 */
  lemma ExtractTheTennisPlayerIsFast()
    ensures ExtractNumber("The tennis player is fast", true) == None
  {
    ExtractTheTennisPlayerIsFastWordsUpto5("The tennis player is fast");
    ExtractTheTennisPlayerIsFastReadings(true);
    ExtractTheTennisPlayerIsFastScan0([OtherWord, OtherWord, OtherWord, OtherWord, OtherWord]);
  }

  lemma ExtractFraggleWordsUpto1(s: string)
    requires s == "fraggle"
    ensures Words(Lower(s)) == ["fraggle"]
  {
    LowerWordsSingle(s, "fraggle");
  }

  lemma ExtractFraggleReadings0(ws: seq<string>, ts: seq<Token>, shortScale: bool)
    requires ws == ["fraggle"]
    requires ts == [OtherWord]
    ensures Tokens(ws, shortScale) == ts
  {
    forall i | 0 <= i < 1
      ensures Classify(ws[i], shortScale) == ts[i]
    {
      if i == 0 { ReadFraggle(shortScale); }
    }
    TokensOfReadings(ws, ts, shortScale);
  }

  lemma ExtractFraggleReadings(shortScale: bool)
    ensures Tokens(["fraggle"], shortScale) == [OtherWord]
  {
    ExtractFraggleReadings0(["fraggle"], [OtherWord], shortScale);
  }

  lemma ExtractFraggleScan0(ts: seq<Token>)
    requires ts == [OtherWord]
    ensures Scan(ts, None, false) == []
  {
  }

  /** test/test_parse.py:287 */
  lemma ExtractFraggle()
    ensures ExtractNumber("fraggle", true) == None
  {
    ExtractFraggleWordsUpto1("fraggle");
    ExtractFraggleReadings(true);
    ExtractFraggleScan0([OtherWord]);
  }

  lemma ExtractFraggleZeroWordsUpto1(s: string)
    requires s == "fraggle"
    ensures Words(Lower(s)) == ["fraggle"]
  {
    LowerWordsSingle(s, "fraggle");
  }

  lemma ExtractFraggleZeroWordsUpto2(s: string)
    requires s == "fraggle zero"
    ensures Words(Lower(s)) == ["fraggle", "zero"]
  {
    var p := s[..7];
    LowerWordsNext(s, p, 1, "zero", "zero");
    ExtractFraggleZeroWordsUpto1(p);
  }

  lemma ExtractFraggleZeroReadings0(ws: seq<string>, ts: seq<Token>, shortScale: bool)
    requires ws == ["fraggle", "zero"]
    requires ts == [OtherWord, ZeroWord]
    ensures Tokens(ws, shortScale) == ts
  {
    forall i | 0 <= i < 2
      ensures Classify(ws[i], shortScale) == ts[i]
    {
      if i == 0 { ReadFraggle(shortScale); }
      else if i == 1 { ReadZero(shortScale); }
    }
    TokensOfReadings(ws, ts, shortScale);
  }

  lemma ExtractFraggleZeroReadings(shortScale: bool)
    ensures Tokens(["fraggle", "zero"], shortScale) == [OtherWord, ZeroWord]
  {
    ExtractFraggleZeroReadings0(["fraggle", "zero"], [OtherWord, ZeroWord], shortScale);
  }

  lemma ExtractFraggleZeroScan0(ts: seq<Token>)
    requires ts == [OtherWord, ZeroWord]
    ensures Scan(ts, None, false) == [0]
  {
    ExtractFraggleZeroScan1(ts[1..]);
  }

  lemma ExtractFraggleZeroScan1(ts: seq<Token>)
    requires ts == [ZeroWord]
    ensures Scan(ts, None, false) == [0]
  {
  }

  /** test/test_parse.py:289-290 */
  lemma ExtractFraggleZero()
    ensures ExtractNumber("fraggle zero", true) == Some(0)
  {
    ExtractFraggleZeroWordsUpto2("fraggle zero");
    ExtractFraggleZeroReadings(true);
    ExtractFraggleZeroScan0([OtherWord, ZeroWord]);
  }

  lemma ExtractGrobo0WordsUpto1(s: string)
    requires s == "grobo"
    ensures Words(Lower(s)) == ["grobo"]
  {
    LowerWordsSingle(s, "grobo");
  }

  lemma ExtractGrobo0WordsUpto2(s: string)
    requires s == "grobo 0"
    ensures Words(Lower(s)) == ["grobo", "0"]
  {
    var p := s[..5];
    LowerWordsNext(s, p, 1, "0", "0");
    ExtractGrobo0WordsUpto1(p);
  }

  lemma ExtractGrobo0Readings0(ws: seq<string>, ts: seq<Token>, shortScale: bool)
    requires ws == ["grobo", "0"]
    requires ts == [OtherWord, Digits(0)]
    ensures Tokens(ws, shortScale) == ts
  {
    forall i | 0 <= i < 2
      ensures Classify(ws[i], shortScale) == ts[i]
    {
      if i == 0 { ReadGrobo(shortScale); }
      else if i == 1 { Read0(shortScale); }
    }
    TokensOfReadings(ws, ts, shortScale);
  }

  lemma ExtractGrobo0Readings(shortScale: bool)
    ensures Tokens(["grobo", "0"], shortScale) == [OtherWord, Digits(0)]
  {
    ExtractGrobo0Readings0(["grobo", "0"], [OtherWord, Digits(0)], shortScale);
  }

  lemma ExtractGrobo0Scan0(ts: seq<Token>)
    requires ts == [OtherWord, Digits(0)]
    ensures Scan(ts, None, false) == [0]
  {
    ExtractGrobo0Scan1(ts[1..]);
  }

  lemma ExtractGrobo0Scan1(ts: seq<Token>)
    requires ts == [Digits(0)]
    ensures Scan(ts, None, false) == [0]
  {
    LoneDigitString(0);
  }

  /** test/test_parse.py:292-293 */
  lemma ExtractGrobo0()
    ensures ExtractNumber("grobo 0", true) == Some(0)
  {
    ExtractGrobo0WordsUpto2("grobo 0");
    ExtractGrobo0Readings(true);
    ExtractGrobo0Scan0([OtherWord, Digits(0)]);
  }

  lemma ExtractACoupleOfBeersWordsUpto1(s: string)
    requires s == "a"
    ensures Words(Lower(s)) == ["a"]
  {
    LowerWordsSingle(s, "a");
  }

  lemma ExtractACoupleOfBeersWordsUpto2(s: string)
    requires s == "a couple"
    ensures Words(Lower(s)) == ["a", "couple"]
  {
    var p := s[..1];
    LowerWordsNext(s, p, 1, "couple", "couple");
    ExtractACoupleOfBeersWordsUpto1(p);
  }

  lemma ExtractACoupleOfBeersWordsUpto3(s: string)
    requires s == "a couple of"
    ensures Words(Lower(s)) == ["a", "couple", "of"]
  {
    var p := s[..8];
    LowerWordsNext(s, p, 1, "of", "of");
    ExtractACoupleOfBeersWordsUpto2(p);
  }

  lemma ExtractACoupleOfBeersWordsUpto4(s: string)
    requires s == "a couple of beers"
    ensures Words(Lower(s)) == ["a", "couple", "of", "beers"]
  {
    var p := s[..11];
    LowerWordsNext(s, p, 1, "beers", "beers");
    ExtractACoupleOfBeersWordsUpto3(p);
  }

  lemma ExtractACoupleOfBeersReadings0(ws: seq<string>, ts: seq<Token>, shortScale: bool)
    requires ws == ["a", "couple", "of", "beers"]
    requires ts == [OtherWord, UnitWord(2), OtherWord, OtherWord]
    ensures Tokens(ws, shortScale) == ts
  {
    forall i | 0 <= i < 4
      ensures Classify(ws[i], shortScale) == ts[i]
    {
      if i == 0 { ReadA(shortScale); }
      else if i == 1 { ReadCouple(shortScale); }
      else if i == 2 { ReadOf(shortScale); }
      else if i == 3 { ReadBeers(shortScale); }
    }
    TokensOfReadings(ws, ts, shortScale);
  }

  lemma ExtractACoupleOfBeersReadings(shortScale: bool)
    ensures Tokens(["a", "couple", "of", "beers"], shortScale) == [OtherWord, UnitWord(2), OtherWord, OtherWord]
  {
    ExtractACoupleOfBeersReadings0(["a", "couple", "of", "beers"], [OtherWord, UnitWord(2), OtherWord, OtherWord], shortScale);
  }

  lemma ExtractACoupleOfBeersScan0(ts: seq<Token>)
    requires ts == [OtherWord, UnitWord(2), OtherWord, OtherWord]
    ensures Scan(ts, None, false) == [2]
  {
    ExtractACoupleOfBeersScan1(ts[1..]);
  }

  lemma ExtractACoupleOfBeersScan1(ts: seq<Token>)
    requires ts == [UnitWord(2), OtherWord, OtherWord]
    ensures Scan(ts, None, false) == [2]
  {
    ExtractACoupleOfBeersScan2(ts[1..]);
  }

  lemma ExtractACoupleOfBeersScan2(ts: seq<Token>)
    requires ts == [OtherWord, OtherWord]
    ensures Scan(ts, Some(Run(0, 2, UnitWord(2), false)), false) == [2]
  {
    ExtractACoupleOfBeersScan3(ts[1..]);
  }

  lemma ExtractACoupleOfBeersScan3(ts: seq<Token>)
    requires ts == [OtherWord]
    ensures Scan(ts, None, false) == []
  {
  }

  /** test/test_parse.py:295 */
  lemma ExtractACoupleOfBeers()
    ensures ExtractNumber("a couple of beers", true) == Some(2)
  {
    ExtractACoupleOfBeersWordsUpto4("a couple of beers");
    ExtractACoupleOfBeersReadings(true);
    ExtractACoupleOfBeersScan0([OtherWord, UnitWord(2), OtherWord, OtherWord]);
  }

  lemma ExtractACoupleHundredBeersWordsUpto1(s: string)
    requires s == "a"
    ensures Words(Lower(s)) == ["a"]
  {
    LowerWordsSingle(s, "a");
  }

  lemma ExtractACoupleHundredBeersWordsUpto2(s: string)
    requires s == "a couple"
    ensures Words(Lower(s)) == ["a", "couple"]
  {
    var p := s[..1];
    LowerWordsNext(s, p, 1, "couple", "couple");
    ExtractACoupleHundredBeersWordsUpto1(p);
  }

  lemma ExtractACoupleHundredBeersWordsUpto3(s: string)
    requires s == "a couple hundred"
    ensures Words(Lower(s)) == ["a", "couple", "hundred"]
  {
    var p := s[..8];
    LowerWordsNext(s, p, 1, "hundred", "hundred");
    ExtractACoupleHundredBeersWordsUpto2(p);
  }

  lemma ExtractACoupleHundredBeersWordsUpto4(s: string)
    requires s == "a couple hundred beers"
    ensures Words(Lower(s)) == ["a", "couple", "hundred", "beers"]
  {
    var p := s[..16];
    LowerWordsNext(s, p, 1, "beers", "beers");
    ExtractACoupleHundredBeersWordsUpto3(p);
  }

  lemma ExtractACoupleHundredBeersReadings0(ws: seq<string>, ts: seq<Token>, shortScale: bool)
    requires ws == ["a", "couple", "hundred", "beers"]
    requires ts == [OtherWord, UnitWord(2), HundredWord, OtherWord]
    ensures Tokens(ws, shortScale) == ts
  {
    forall i | 0 <= i < 4
      ensures Classify(ws[i], shortScale) == ts[i]
    {
      if i == 0 { ReadA(shortScale); }
      else if i == 1 { ReadCouple(shortScale); }
      else if i == 2 { ReadHundred(shortScale); }
      else if i == 3 { ReadBeers(shortScale); }
    }
    TokensOfReadings(ws, ts, shortScale);
  }

  lemma ExtractACoupleHundredBeersReadings(shortScale: bool)
    ensures Tokens(["a", "couple", "hundred", "beers"], shortScale) == [OtherWord, UnitWord(2), HundredWord, OtherWord]
  {
    ExtractACoupleHundredBeersReadings0(["a", "couple", "hundred", "beers"], [OtherWord, UnitWord(2), HundredWord, OtherWord], shortScale);
  }

  lemma ExtractACoupleHundredBeersScan0(ts: seq<Token>)
    requires ts == [OtherWord, UnitWord(2), HundredWord, OtherWord]
    ensures Scan(ts, None, false) == [200]
  {
    ExtractACoupleHundredBeersScan1(ts[1..]);
  }

  lemma ExtractACoupleHundredBeersScan1(ts: seq<Token>)
    requires ts == [UnitWord(2), HundredWord, OtherWord]
    ensures Scan(ts, None, false) == [200]
  {
    ExtractACoupleHundredBeersScan2(ts[1..]);
  }

  lemma ExtractACoupleHundredBeersScan2(ts: seq<Token>)
    requires ts == [HundredWord, OtherWord]
    ensures Scan(ts, Some(Run(0, 2, UnitWord(2), false)), false) == [200]
  {
    ExtractACoupleHundredBeersScan3(ts[1..]);
  }

  lemma ExtractACoupleHundredBeersScan3(ts: seq<Token>)
    requires ts == [OtherWord]
    ensures Scan(ts, Some(Run(0, 200, HundredWord, false)), false) == [200]
  {
  }

  /** test/test_parse.py:296 */
  lemma ExtractACoupleHundredBeers()
    ensures ExtractNumber("a couple hundred beers", true) == Some(200)
  {
    ExtractACoupleHundredBeersWordsUpto4("a couple hundred beers");
    ExtractACoupleHundredBeersReadings(true);
    ExtractACoupleHundredBeersScan0([OtherWord, UnitWord(2), HundredWord, OtherWord]);
  }

  lemma ExtractACoupleThousandBeersWordsUpto1(s: string)
    requires s == "a"
    ensures Words(Lower(s)) == ["a"]
  {
    LowerWordsSingle(s, "a");
  }

  lemma ExtractACoupleThousandBeersWordsUpto2(s: string)
    requires s == "a couple"
    ensures Words(Lower(s)) == ["a", "couple"]
  {
    var p := s[..1];
    LowerWordsNext(s, p, 1, "couple", "couple");
    ExtractACoupleThousandBeersWordsUpto1(p);
  }

  lemma ExtractACoupleThousandBeersWordsUpto3(s: string)
    requires s == "a couple thousand"
    ensures Words(Lower(s)) == ["a", "couple", "thousand"]
  {
    var p := s[..8];
    LowerWordsNext(s, p, 1, "thousand", "thousand");
    ExtractACoupleThousandBeersWordsUpto2(p);
  }

  lemma ExtractACoupleThousandBeersWordsUpto4(s: string)
    requires s == "a couple thousand beers"
    ensures Words(Lower(s)) == ["a", "couple", "thousand", "beers"]
  {
    var p := s[..17];
    LowerWordsNext(s, p, 1, "beers", "beers");
    ExtractACoupleThousandBeersWordsUpto3(p);
  }

  lemma ExtractACoupleThousandBeersReadings0(ws: seq<string>, ts: seq<Token>, shortScale: bool)
    requires ws == ["a", "couple", "thousand", "beers"]
    requires ts == [OtherWord, UnitWord(2), ScaleWord(ScaleValue(0, shortScale)), OtherWord]
    ensures Tokens(ws, shortScale) == ts
  {
    forall i | 0 <= i < 4
      ensures Classify(ws[i], shortScale) == ts[i]
    {
      if i == 0 { ReadA(shortScale); }
      else if i == 1 { ReadCouple(shortScale); }
      else if i == 2 { ReadThousand(shortScale); }
      else if i == 3 { ReadBeers(shortScale); }
    }
    TokensOfReadings(ws, ts, shortScale);
  }

  lemma ExtractACoupleThousandBeersReadings(shortScale: bool)
    ensures Tokens(["a", "couple", "thousand", "beers"], shortScale) == [OtherWord, UnitWord(2), ScaleWord(ScaleValue(0, shortScale)), OtherWord]
  {
    ExtractACoupleThousandBeersReadings0(["a", "couple", "thousand", "beers"], [OtherWord, UnitWord(2), ScaleWord(ScaleValue(0, shortScale)), OtherWord], shortScale);
  }

  lemma ExtractACoupleThousandBeersScan0(ts: seq<Token>)
    requires ts == [OtherWord, UnitWord(2), ScaleWord(1000), OtherWord]
    ensures Scan(ts, None, false) == [2000]
  {
    ExtractACoupleThousandBeersScan1(ts[1..]);
  }

  lemma ExtractACoupleThousandBeersScan1(ts: seq<Token>)
    requires ts == [UnitWord(2), ScaleWord(1000), OtherWord]
    ensures Scan(ts, None, false) == [2000]
  {
    ExtractACoupleThousandBeersScan2(ts[1..]);
  }

  lemma ExtractACoupleThousandBeersScan2(ts: seq<Token>)
    requires ts == [ScaleWord(1000), OtherWord]
    ensures Scan(ts, Some(Run(0, 2, UnitWord(2), false)), false) == [2000]
  {
    ExtractACoupleThousandBeersScan3(ts[1..]);
  }

  lemma ExtractACoupleThousandBeersScan3(ts: seq<Token>)
    requires ts == [OtherWord]
    ensures Scan(ts, Some(Run(2000, 0, ScaleWord(1000), false)), false) == [2000]
  {
  }

  /** test/test_parse.py:297 */
  lemma ExtractACoupleThousandBeers()
    ensures ExtractNumber("a couple thousand beers", true) == Some(2000)
  {
    ExtractACoupleThousandBeersWordsUpto4("a couple thousand beers");
    ExtractACoupleThousandBeersReadings(true);
    ScaleValuesThousand();
    ExtractACoupleThousandBeersScan0([OtherWord, UnitWord(2), ScaleWord(1000), OtherWord]);
  }

  lemma ExtractTotally100PercentWordsUpto1(s: string)
    requires s == "totally"
    ensures Words(Lower(s)) == ["totally"]
  {
    LowerWordsSingle(s, "totally");
  }

  lemma ExtractTotally100PercentWordsUpto2(s: string)
    requires s == "totally 100%"
    ensures Words(Lower(s)) == ["totally", "100%"]
  {
    var p := s[..7];
    LowerWordsNext(s, p, 1, "100%", "100%");
    ExtractTotally100PercentWordsUpto1(p);
  }

  lemma ExtractTotally100PercentReadings0(ws: seq<string>, ts: seq<Token>, shortScale: bool)
    requires ws == ["totally", "100%"]
    requires ts == [OtherWord, Digits(100)]
    ensures Tokens(ws, shortScale) == ts
  {
    forall i | 0 <= i < 2
      ensures Classify(ws[i], shortScale) == ts[i]
    {
      if i == 0 { ReadTotally(shortScale); }
      else if i == 1 { Read100Percent(shortScale); }
    }
    TokensOfReadings(ws, ts, shortScale);
  }

  lemma ExtractTotally100PercentReadings(shortScale: bool)
    ensures Tokens(["totally", "100%"], shortScale) == [OtherWord, Digits(100)]
  {
    ExtractTotally100PercentReadings0(["totally", "100%"], [OtherWord, Digits(100)], shortScale);
  }

  lemma ExtractTotally100PercentScan0(ts: seq<Token>)
    requires ts == [OtherWord, Digits(100)]
    ensures Scan(ts, None, false) == [100]
  {
    ExtractTotally100PercentScan1(ts[1..]);
  }

  lemma ExtractTotally100PercentScan1(ts: seq<Token>)
    requires ts == [Digits(100)]
    ensures Scan(ts, None, false) == [100]
  {
  }

  /** test/test_parse.py:298 */
  lemma ExtractTotally100Percent()
    ensures ExtractNumber("totally 100%", true) == Some(100)
  {
    ExtractTotally100PercentWordsUpto2("totally 100%");
    ExtractTotally100PercentReadings(true);
    ExtractTotally100PercentScan0([OtherWord, Digits(100)]);
  }

  lemma ExtractAllThisIsAOneTwoWordsUpto1(s: string)
    requires s == "this"
    ensures Words(Lower(s)) == ["this"]
  {
    LowerWordsSingle(s, "this");
  }

  lemma ExtractAllThisIsAOneTwoWordsUpto2(s: string)
    requires s == "this is"
    ensures Words(Lower(s)) == ["this", "is"]
  {
    var p := s[..4];
    LowerWordsNext(s, p, 1, "is", "is");
    ExtractAllThisIsAOneTwoWordsUpto1(p);
  }

  lemma ExtractAllThisIsAOneTwoWordsUpto3(s: string)
    requires s == "this is a"
    ensures Words(Lower(s)) == ["this", "is", "a"]
  {
    var p := s[..7];
    LowerWordsNext(s, p, 1, "a", "a");
    ExtractAllThisIsAOneTwoWordsUpto2(p);
  }

  lemma ExtractAllThisIsAOneTwoWordsUpto4(s: string)
    requires s == "this is a one"
    ensures Words(Lower(s)) == ["this", "is", "a", "one"]
  {
    var p := s[..9];
    LowerWordsNext(s, p, 1, "one", "one");
    ExtractAllThisIsAOneTwoWordsUpto3(p);
  }

  lemma ExtractAllThisIsAOneTwoWordsUpto5(s: string)
    requires s == "this is a one two"
    ensures Words(Lower(s)) == ["this", "is", "a", "one", "two"]
  {
    var p := s[..13];
    LowerWordsNext(s, p, 1, "two", "two");
    ExtractAllThisIsAOneTwoWordsUpto4(p);
  }

  lemma ExtractAllThisIsAOneTwoWordsUpto6(s: string)
    requires s == "this is a one two three"
    ensures Words(Lower(s)) == ["this", "is", "a", "one", "two", "three"]
  {
    var p := s[..17];
    LowerWordsNext(s, p, 1, "three", "three");
    ExtractAllThisIsAOneTwoWordsUpto5(p);
  }

  lemma ExtractAllThisIsAOneTwoWordsGap6Spaces2(s: string)
    requires s == "this is a one two three  "
    ensures Words(Lower(s)) == ["this", "is", "a", "one", "two", "three"]
  {
    var p := s[..23];
    LowerWordsTrailing(s, p, 2);
    ExtractAllThisIsAOneTwoWordsUpto6(p);
  }

  lemma ExtractAllThisIsAOneTwoWordsUpto7(s: string)
    requires s == "this is a one two three  test"
    ensures Words(Lower(s)) == ["this", "is", "a", "one", "two", "three", "test"]
  {
    var p := s[..25];
    LowerWordsAfterSpace(s, p, "test", "test");
    ExtractAllThisIsAOneTwoWordsGap6Spaces2(p);
  }

  lemma ExtractAllThisIsAOneTwoReadings0(ws: seq<string>, ts: seq<Token>, shortScale: bool)
    requires ws == ["this", "is", "a", "one"]
    requires ts == [OtherWord, OtherWord, OtherWord, UnitWord(1)]
    ensures Tokens(ws, shortScale) == ts
  {
    forall i | 0 <= i < 4
      ensures Classify(ws[i], shortScale) == ts[i]
    {
      if i == 0 { ReadThis(shortScale); }
      else if i == 1 { ReadIs(shortScale); }
      else if i == 2 { ReadA(shortScale); }
      else if i == 3 { ReadOne(shortScale); }
    }
    TokensOfReadings(ws, ts, shortScale);
  }

  lemma ExtractAllThisIsAOneTwoReadings1(ws: seq<string>, ts: seq<Token>, shortScale: bool)
    requires ws == ["two", "three", "test"]
    requires ts == [UnitWord(2), UnitWord(3), OtherWord]
    ensures Tokens(ws, shortScale) == ts
  {
    forall i | 0 <= i < 3
      ensures Classify(ws[i], shortScale) == ts[i]
    {
      if i == 0 { ReadTwo(shortScale); }
      else if i == 1 { ReadThree(shortScale); }
      else if i == 2 { ReadTest(shortScale); }
    }
    TokensOfReadings(ws, ts, shortScale);
  }

  lemma ExtractAllThisIsAOneTwoWordChunks()
    ensures ["this", "is", "a", "one", "two", "three", "test"] == ["this", "is", "a", "one"] + ["two", "three", "test"]
  {
  }

  lemma ExtractAllThisIsAOneTwoTokenChunks(shortScale: bool)
    ensures [OtherWord, OtherWord, OtherWord, UnitWord(1), UnitWord(2), UnitWord(3), OtherWord] == [OtherWord, OtherWord, OtherWord, UnitWord(1)] + [UnitWord(2), UnitWord(3), OtherWord]
  {
  }

  lemma ExtractAllThisIsAOneTwoReadings(shortScale: bool)
    ensures Tokens(["this", "is", "a", "one", "two", "three", "test"], shortScale) == [OtherWord, OtherWord, OtherWord, UnitWord(1), UnitWord(2), UnitWord(3), OtherWord]
  {
    var w0, w1 := ["this", "is", "a", "one"], ["two", "three", "test"];
    var t0, t1 := [OtherWord, OtherWord, OtherWord, UnitWord(1)], [UnitWord(2), UnitWord(3), OtherWord];
    ExtractAllThisIsAOneTwoReadings0(w0, t0, shortScale);
    ExtractAllThisIsAOneTwoReadings1(w1, t1, shortScale);
    TokensJoin(w0, w1, t0, t1, shortScale);
    ExtractAllThisIsAOneTwoWordChunks();
    ExtractAllThisIsAOneTwoTokenChunks(shortScale);
  }

  lemma ExtractAllThisIsAOneTwoScan0(ts: seq<Token>)
    requires ts == [OtherWord, OtherWord, OtherWord, UnitWord(1), UnitWord(2), UnitWord(3), OtherWord]
    ensures Scan(ts, None, false) == [1, 2, 3]
  {
    ExtractAllThisIsAOneTwoScan1(ts[1..]);
  }

  lemma ExtractAllThisIsAOneTwoScan1(ts: seq<Token>)
    requires ts == [OtherWord, OtherWord, UnitWord(1), UnitWord(2), UnitWord(3), OtherWord]
    ensures Scan(ts, None, false) == [1, 2, 3]
  {
    ExtractAllThisIsAOneTwoScan2(ts[1..]);
  }

  lemma ExtractAllThisIsAOneTwoScan2(ts: seq<Token>)
    requires ts == [OtherWord, UnitWord(1), UnitWord(2), UnitWord(3), OtherWord]
    ensures Scan(ts, None, false) == [1, 2, 3]
  {
    ExtractAllThisIsAOneTwoScan3(ts[1..]);
  }

  lemma ExtractAllThisIsAOneTwoScan3(ts: seq<Token>)
    requires ts == [UnitWord(1), UnitWord(2), UnitWord(3), OtherWord]
    ensures Scan(ts, None, false) == [1, 2, 3]
  {
    ExtractAllThisIsAOneTwoScan4(ts[1..]);
  }

  lemma ExtractAllThisIsAOneTwoScan4(ts: seq<Token>)
    requires ts == [UnitWord(2), UnitWord(3), OtherWord]
    ensures Scan(ts, Some(Run(0, 1, UnitWord(1), false)), false) == [1, 2, 3]
  {
    ExtractAllThisIsAOneTwoScan5(ts[1..]);
  }

  lemma ExtractAllThisIsAOneTwoScan5(ts: seq<Token>)
    requires ts == [UnitWord(3), OtherWord]
    ensures Scan(ts, Some(Run(0, 2, UnitWord(2), false)), false) == [2, 3]
  {
    ExtractAllThisIsAOneTwoScan6(ts[1..]);
  }

  lemma ExtractAllThisIsAOneTwoScan6(ts: seq<Token>)
    requires ts == [OtherWord]
    ensures Scan(ts, Some(Run(0, 3, UnitWord(3), false)), false) == [3]
  {
  }

  /** test/test_parse.py:899-900 */
  lemma ExtractAllThisIsAOneTwo()
    ensures ExtractNumbers("this is a one two three  test", true) == [1, 2, 3]
  {
    ExtractAllThisIsAOneTwoWordsUpto7("this is a one two three  test");
    ExtractAllThisIsAOneTwoReadings(true);
    ExtractAllThisIsAOneTwoScan0([OtherWord, OtherWord, OtherWord, UnitWord(1), UnitWord(2), UnitWord(3), OtherWord]);
  }

  lemma ExtractAllItApossAFourFiveSixWordsUpto1(s: string)
    requires s == "it's"
    ensures Words(Lower(s)) == ["it's"]
  {
    LowerWordsSingle(s, "it's");
  }

  lemma ExtractAllItApossAFourFiveSixWordsGap1Spaces2(s: string)
    requires s == "it's  "
    ensures Words(Lower(s)) == ["it's"]
  {
    var p := s[..4];
    LowerWordsTrailing(s, p, 2);
    ExtractAllItApossAFourFiveSixWordsUpto1(p);
  }

  lemma ExtractAllItApossAFourFiveSixWordsUpto2(s: string)
    requires s == "it's  a"
    ensures Words(Lower(s)) == ["it's", "a"]
  {
    var p := s[..6];
    LowerWordsAfterSpace(s, p, "a", "a");
    ExtractAllItApossAFourFiveSixWordsGap1Spaces2(p);
  }

  lemma ExtractAllItApossAFourFiveSixWordsUpto3(s: string)
    requires s == "it's  a four"
    ensures Words(Lower(s)) == ["it's", "a", "four"]
  {
    var p := s[..7];
    LowerWordsNext(s, p, 1, "four", "four");
    ExtractAllItApossAFourFiveSixWordsUpto2(p);
  }

  lemma ExtractAllItApossAFourFiveSixWordsUpto4(s: string)
    requires s == "it's  a four five"
    ensures Words(Lower(s)) == ["it's", "a", "four", "five"]
  {
    var p := s[..12];
    LowerWordsNext(s, p, 1, "five", "five");
    ExtractAllItApossAFourFiveSixWordsUpto3(p);
  }

  lemma ExtractAllItApossAFourFiveSixWordsUpto5(s: string)
    requires s == "it's  a four five six"
    ensures Words(Lower(s)) == ["it's", "a", "four", "five", "six"]
  {
    var p := s[..17];
    LowerWordsNext(s, p, 1, "six", "six");
    ExtractAllItApossAFourFiveSixWordsUpto4(p);
  }

  lemma ExtractAllItApossAFourFiveSixWordsGap5Spaces2(s: string)
    requires s == "it's  a four five six  "
    ensures Words(Lower(s)) == ["it's", "a", "four", "five", "six"]
  {
    var p := s[..21];
    LowerWordsTrailing(s, p, 2);
    ExtractAllItApossAFourFiveSixWordsUpto5(p);
  }

  lemma ExtractAllItApossAFourFiveSixWordsUpto6(s: string)
    requires s == "it's  a four five six  test"
    ensures Words(Lower(s)) == ["it's", "a", "four", "five", "six", "test"]
  {
    var p := s[..23];
    LowerWordsAfterSpace(s, p, "test", "test");
    ExtractAllItApossAFourFiveSixWordsGap5Spaces2(p);
  }

  lemma ExtractAllItApossAFourFiveSixReadings0(ws: seq<string>, ts: seq<Token>, shortScale: bool)
    requires ws == ["it's", "a", "four", "five"]
    requires ts == [OtherWord, OtherWord, UnitWord(4), UnitWord(5)]
    ensures Tokens(ws, shortScale) == ts
  {
    forall i | 0 <= i < 4
      ensures Classify(ws[i], shortScale) == ts[i]
    {
      if i == 0 { ReadItAposs(shortScale); }
      else if i == 1 { ReadA(shortScale); }
      else if i == 2 { ReadFour(shortScale); }
      else if i == 3 { ReadFive(shortScale); }
    }
    TokensOfReadings(ws, ts, shortScale);
  }

  lemma ExtractAllItApossAFourFiveSixReadings1(ws: seq<string>, ts: seq<Token>, shortScale: bool)
    requires ws == ["six", "test"]
    requires ts == [UnitWord(6), OtherWord]
    ensures Tokens(ws, shortScale) == ts
  {
    forall i | 0 <= i < 2
      ensures Classify(ws[i], shortScale) == ts[i]
    {
      if i == 0 { ReadSix(shortScale); }
      else if i == 1 { ReadTest(shortScale); }
    }
    TokensOfReadings(ws, ts, shortScale);
  }

  lemma ExtractAllItApossAFourFiveSixWordChunks()
    ensures ["it's", "a", "four", "five", "six", "test"] == ["it's", "a", "four", "five"] + ["six", "test"]
  {
  }

  lemma ExtractAllItApossAFourFiveSixTokenChunks(shortScale: bool)
    ensures [OtherWord, OtherWord, UnitWord(4), UnitWord(5), UnitWord(6), OtherWord] == [OtherWord, OtherWord, UnitWord(4), UnitWord(5)] + [UnitWord(6), OtherWord]
  {
  }

  lemma ExtractAllItApossAFourFiveSixReadings(shortScale: bool)
    ensures Tokens(["it's", "a", "four", "five", "six", "test"], shortScale) == [OtherWord, OtherWord, UnitWord(4), UnitWord(5), UnitWord(6), OtherWord]
  {
    var w0, w1 := ["it's", "a", "four", "five"], ["six", "test"];
    var t0, t1 := [OtherWord, OtherWord, UnitWord(4), UnitWord(5)], [UnitWord(6), OtherWord];
    ExtractAllItApossAFourFiveSixReadings0(w0, t0, shortScale);
    ExtractAllItApossAFourFiveSixReadings1(w1, t1, shortScale);
    TokensJoin(w0, w1, t0, t1, shortScale);
    ExtractAllItApossAFourFiveSixWordChunks();
    ExtractAllItApossAFourFiveSixTokenChunks(shortScale);
  }

  lemma ExtractAllItApossAFourFiveSixScan0(ts: seq<Token>)
    requires ts == [OtherWord, OtherWord, UnitWord(4), UnitWord(5), UnitWord(6), OtherWord]
    ensures Scan(ts, None, false) == [4, 5, 6]
  {
    ExtractAllItApossAFourFiveSixScan1(ts[1..]);
  }

  lemma ExtractAllItApossAFourFiveSixScan1(ts: seq<Token>)
    requires ts == [OtherWord, UnitWord(4), UnitWord(5), UnitWord(6), OtherWord]
    ensures Scan(ts, None, false) == [4, 5, 6]
  {
    ExtractAllItApossAFourFiveSixScan2(ts[1..]);
  }

  lemma ExtractAllItApossAFourFiveSixScan2(ts: seq<Token>)
    requires ts == [UnitWord(4), UnitWord(5), UnitWord(6), OtherWord]
    ensures Scan(ts, None, false) == [4, 5, 6]
  {
    ExtractAllItApossAFourFiveSixScan3(ts[1..]);
  }

  lemma ExtractAllItApossAFourFiveSixScan3(ts: seq<Token>)
    requires ts == [UnitWord(5), UnitWord(6), OtherWord]
    ensures Scan(ts, Some(Run(0, 4, UnitWord(4), false)), false) == [4, 5, 6]
  {
    ExtractAllItApossAFourFiveSixScan4(ts[1..]);
  }

  lemma ExtractAllItApossAFourFiveSixScan4(ts: seq<Token>)
    requires ts == [UnitWord(6), OtherWord]
    ensures Scan(ts, Some(Run(0, 5, UnitWord(5), false)), false) == [5, 6]
  {
    ExtractAllItApossAFourFiveSixScan5(ts[1..]);
  }

  lemma ExtractAllItApossAFourFiveSixScan5(ts: seq<Token>)
    requires ts == [OtherWord]
    ensures Scan(ts, Some(Run(0, 6, UnitWord(6), false)), false) == [6]
  {
  }

  /** test/test_parse.py:901-902 */
  lemma ExtractAllItApossAFourFiveSix()
    ensures ExtractNumbers("it's  a four five six  test", true) == [4, 5, 6]
  {
    ExtractAllItApossAFourFiveSixWordsUpto6("it's  a four five six  test");
    ExtractAllItApossAFourFiveSixReadings(true);
    ExtractAllItApossAFourFiveSixScan0([OtherWord, OtherWord, UnitWord(4), UnitWord(5), UnitWord(6), OtherWord]);
  }

  lemma ExtractAllThisIsATenElevenWordsUpto1(s: string)
    requires s == "this"
    ensures Words(Lower(s)) == ["this"]
  {
    LowerWordsSingle(s, "this");
  }

  lemma ExtractAllThisIsATenElevenWordsUpto2(s: string)
    requires s == "this is"
    ensures Words(Lower(s)) == ["this", "is"]
  {
    var p := s[..4];
    LowerWordsNext(s, p, 1, "is", "is");
    ExtractAllThisIsATenElevenWordsUpto1(p);
  }

  lemma ExtractAllThisIsATenElevenWordsUpto3(s: string)
    requires s == "this is a"
    ensures Words(Lower(s)) == ["this", "is", "a"]
  {
    var p := s[..7];
    LowerWordsNext(s, p, 1, "a", "a");
    ExtractAllThisIsATenElevenWordsUpto2(p);
  }

  lemma ExtractAllThisIsATenElevenWordsUpto4(s: string)
    requires s == "this is a ten"
    ensures Words(Lower(s)) == ["this", "is", "a", "ten"]
  {
    var p := s[..9];
    LowerWordsNext(s, p, 1, "ten", "ten");
    ExtractAllThisIsATenElevenWordsUpto3(p);
  }

  lemma ExtractAllThisIsATenElevenWordsUpto5(s: string)
    requires s == "this is a ten eleven"
    ensures Words(Lower(s)) == ["this", "is", "a", "ten", "eleven"]
  {
    var p := s[..13];
    LowerWordsNext(s, p, 1, "eleven", "eleven");
    ExtractAllThisIsATenElevenWordsUpto4(p);
  }

  lemma ExtractAllThisIsATenElevenWordsUpto6(s: string)
    requires s == "this is a ten eleven twelve"
    ensures Words(Lower(s)) == ["this", "is", "a", "ten", "eleven", "twelve"]
  {
    var p := s[..20];
    LowerWordsNext(s, p, 1, "twelve", "twelve");
    ExtractAllThisIsATenElevenWordsUpto5(p);
  }

  lemma ExtractAllThisIsATenElevenWordsGap6Spaces2(s: string)
    requires s == "this is a ten eleven twelve  "
    ensures Words(Lower(s)) == ["this", "is", "a", "ten", "eleven", "twelve"]
  {
    var p := s[..27];
    LowerWordsTrailing(s, p, 2);
    ExtractAllThisIsATenElevenWordsUpto6(p);
  }

  lemma ExtractAllThisIsATenElevenWordsUpto7(s: string)
    requires s == "this is a ten eleven twelve  test"
    ensures Words(Lower(s)) == ["this", "is", "a", "ten", "eleven", "twelve", "test"]
  {
    var p := s[..29];
    LowerWordsAfterSpace(s, p, "test", "test");
    ExtractAllThisIsATenElevenWordsGap6Spaces2(p);
  }

  lemma ExtractAllThisIsATenElevenReadings0(ws: seq<string>, ts: seq<Token>, shortScale: bool)
    requires ws == ["this", "is", "a", "ten"]
    requires ts == [OtherWord, OtherWord, OtherWord, TeenWord(10)]
    ensures Tokens(ws, shortScale) == ts
  {
    forall i | 0 <= i < 4
      ensures Classify(ws[i], shortScale) == ts[i]
    {
      if i == 0 { ReadThis(shortScale); }
      else if i == 1 { ReadIs(shortScale); }
      else if i == 2 { ReadA(shortScale); }
      else if i == 3 { ReadTen(shortScale); }
    }
    TokensOfReadings(ws, ts, shortScale);
  }

  lemma ExtractAllThisIsATenElevenReadings1(ws: seq<string>, ts: seq<Token>, shortScale: bool)
    requires ws == ["eleven", "twelve", "test"]
    requires ts == [TeenWord(11), TeenWord(12), OtherWord]
    ensures Tokens(ws, shortScale) == ts
  {
    forall i | 0 <= i < 3
      ensures Classify(ws[i], shortScale) == ts[i]
    {
      if i == 0 { ReadEleven(shortScale); }
      else if i == 1 { ReadTwelve(shortScale); }
      else if i == 2 { ReadTest(shortScale); }
    }
    TokensOfReadings(ws, ts, shortScale);
  }

  lemma ExtractAllThisIsATenElevenWordChunks()
    ensures ["this", "is", "a", "ten", "eleven", "twelve", "test"] == ["this", "is", "a", "ten"] + ["eleven", "twelve", "test"]
  {
  }

  lemma ExtractAllThisIsATenElevenTokenChunks(shortScale: bool)
    ensures [OtherWord, OtherWord, OtherWord, TeenWord(10), TeenWord(11), TeenWord(12), OtherWord] == [OtherWord, OtherWord, OtherWord, TeenWord(10)] + [TeenWord(11), TeenWord(12), OtherWord]
  {
  }

  lemma ExtractAllThisIsATenElevenReadings(shortScale: bool)
    ensures Tokens(["this", "is", "a", "ten", "eleven", "twelve", "test"], shortScale) == [OtherWord, OtherWord, OtherWord, TeenWord(10), TeenWord(11), TeenWord(12), OtherWord]
  {
    var w0, w1 := ["this", "is", "a", "ten"], ["eleven", "twelve", "test"];
    var t0, t1 := [OtherWord, OtherWord, OtherWord, TeenWord(10)], [TeenWord(11), TeenWord(12), OtherWord];
    ExtractAllThisIsATenElevenReadings0(w0, t0, shortScale);
    ExtractAllThisIsATenElevenReadings1(w1, t1, shortScale);
    TokensJoin(w0, w1, t0, t1, shortScale);
    ExtractAllThisIsATenElevenWordChunks();
    ExtractAllThisIsATenElevenTokenChunks(shortScale);
  }

  lemma ExtractAllThisIsATenElevenScan0(ts: seq<Token>)
    requires ts == [OtherWord, OtherWord, OtherWord, TeenWord(10), TeenWord(11), TeenWord(12), OtherWord]
    ensures Scan(ts, None, false) == [10, 11, 12]
  {
    ExtractAllThisIsATenElevenScan1(ts[1..]);
  }

  lemma ExtractAllThisIsATenElevenScan1(ts: seq<Token>)
    requires ts == [OtherWord, OtherWord, TeenWord(10), TeenWord(11), TeenWord(12), OtherWord]
    ensures Scan(ts, None, false) == [10, 11, 12]
  {
    ExtractAllThisIsATenElevenScan2(ts[1..]);
  }

  lemma ExtractAllThisIsATenElevenScan2(ts: seq<Token>)
    requires ts == [OtherWord, TeenWord(10), TeenWord(11), TeenWord(12), OtherWord]
    ensures Scan(ts, None, false) == [10, 11, 12]
  {
    ExtractAllThisIsATenElevenScan3(ts[1..]);
  }

  lemma ExtractAllThisIsATenElevenScan3(ts: seq<Token>)
    requires ts == [TeenWord(10), TeenWord(11), TeenWord(12), OtherWord]
    ensures Scan(ts, None, false) == [10, 11, 12]
  {
    ExtractAllThisIsATenElevenScan4(ts[1..]);
  }

  lemma ExtractAllThisIsATenElevenScan4(ts: seq<Token>)
    requires ts == [TeenWord(11), TeenWord(12), OtherWord]
    ensures Scan(ts, Some(Run(0, 10, TeenWord(10), false)), false) == [10, 11, 12]
  {
    ExtractAllThisIsATenElevenScan5(ts[1..]);
  }

  lemma ExtractAllThisIsATenElevenScan5(ts: seq<Token>)
    requires ts == [TeenWord(12), OtherWord]
    ensures Scan(ts, Some(Run(0, 11, TeenWord(11), false)), false) == [11, 12]
  {
    ExtractAllThisIsATenElevenScan6(ts[1..]);
  }

  lemma ExtractAllThisIsATenElevenScan6(ts: seq<Token>)
    requires ts == [OtherWord]
    ensures Scan(ts, Some(Run(0, 12, TeenWord(12), false)), false) == [12]
  {
  }

  /** test/test_parse.py:903-904 */
  lemma ExtractAllThisIsATenEleven()
    ensures ExtractNumbers("this is a ten eleven twelve  test", true) == [10, 11, 12]
  {
    ExtractAllThisIsATenElevenWordsUpto7("this is a ten eleven twelve  test");
    ExtractAllThisIsATenElevenReadings(true);
    ExtractAllThisIsATenElevenScan0([OtherWord, OtherWord, OtherWord, TeenWord(10), TeenWord(11), TeenWord(12), OtherWord]);
  }

  lemma ExtractAllThisIsAOneTwentyWordsUpto1(s: string)
    requires s == "this"
    ensures Words(Lower(s)) == ["this"]
  {
    LowerWordsSingle(s, "this");
  }

  lemma ExtractAllThisIsAOneTwentyWordsUpto2(s: string)
    requires s == "this is"
    ensures Words(Lower(s)) == ["this", "is"]
  {
    var p := s[..4];
    LowerWordsNext(s, p, 1, "is", "is");
    ExtractAllThisIsAOneTwentyWordsUpto1(p);
  }

  lemma ExtractAllThisIsAOneTwentyWordsUpto3(s: string)
    requires s == "this is a"
    ensures Words(Lower(s)) == ["this", "is", "a"]
  {
    var p := s[..7];
    LowerWordsNext(s, p, 1, "a", "a");
    ExtractAllThisIsAOneTwentyWordsUpto2(p);
  }

  lemma ExtractAllThisIsAOneTwentyWordsUpto4(s: string)
    requires s == "this is a one"
    ensures Words(Lower(s)) == ["this", "is", "a", "one"]
  {
    var p := s[..9];
    LowerWordsNext(s, p, 1, "one", "one");
    ExtractAllThisIsAOneTwentyWordsUpto3(p);
  }

  lemma ExtractAllThisIsAOneTwentyWordsUpto5(s: string)
    requires s == "this is a one twenty"
    ensures Words(Lower(s)) == ["this", "is", "a", "one", "twenty"]
  {
    var p := s[..13];
    LowerWordsNext(s, p, 1, "twenty", "twenty");
    ExtractAllThisIsAOneTwentyWordsUpto4(p);
  }

  lemma ExtractAllThisIsAOneTwentyWordsUpto6(s: string)
    requires s == "this is a one twenty one"
    ensures Words(Lower(s)) == ["this", "is", "a", "one", "twenty", "one"]
  {
    var p := s[..20];
    LowerWordsNext(s, p, 1, "one", "one");
    ExtractAllThisIsAOneTwentyWordsUpto5(p);
  }

  lemma ExtractAllThisIsAOneTwentyWordsGap6Spaces2(s: string)
    requires s == "this is a one twenty one  "
    ensures Words(Lower(s)) == ["this", "is", "a", "one", "twenty", "one"]
  {
    var p := s[..24];
    LowerWordsTrailing(s, p, 2);
    ExtractAllThisIsAOneTwentyWordsUpto6(p);
  }

  lemma ExtractAllThisIsAOneTwentyWordsUpto7(s: string)
    requires s == "this is a one twenty one  test"
    ensures Words(Lower(s)) == ["this", "is", "a", "one", "twenty", "one", "test"]
  {
    var p := s[..26];
    LowerWordsAfterSpace(s, p, "test", "test");
    ExtractAllThisIsAOneTwentyWordsGap6Spaces2(p);
  }

  lemma ExtractAllThisIsAOneTwentyReadings0(ws: seq<string>, ts: seq<Token>, shortScale: bool)
    requires ws == ["this", "is", "a", "one"]
    requires ts == [OtherWord, OtherWord, OtherWord, UnitWord(1)]
    ensures Tokens(ws, shortScale) == ts
  {
    forall i | 0 <= i < 4
      ensures Classify(ws[i], shortScale) == ts[i]
    {
      if i == 0 { ReadThis(shortScale); }
      else if i == 1 { ReadIs(shortScale); }
      else if i == 2 { ReadA(shortScale); }
      else if i == 3 { ReadOne(shortScale); }
    }
    TokensOfReadings(ws, ts, shortScale);
  }

  lemma ExtractAllThisIsAOneTwentyReadings1(ws: seq<string>, ts: seq<Token>, shortScale: bool)
    requires ws == ["twenty", "one", "test"]
    requires ts == [TensWord(20), UnitWord(1), OtherWord]
    ensures Tokens(ws, shortScale) == ts
  {
    forall i | 0 <= i < 3
      ensures Classify(ws[i], shortScale) == ts[i]
    {
      if i == 0 { ReadTwenty(shortScale); }
      else if i == 1 { ReadOne(shortScale); }
      else if i == 2 { ReadTest(shortScale); }
    }
    TokensOfReadings(ws, ts, shortScale);
  }

  lemma ExtractAllThisIsAOneTwentyWordChunks()
    ensures ["this", "is", "a", "one", "twenty", "one", "test"] == ["this", "is", "a", "one"] + ["twenty", "one", "test"]
  {
  }

  lemma ExtractAllThisIsAOneTwentyTokenChunks(shortScale: bool)
    ensures [OtherWord, OtherWord, OtherWord, UnitWord(1), TensWord(20), UnitWord(1), OtherWord] == [OtherWord, OtherWord, OtherWord, UnitWord(1)] + [TensWord(20), UnitWord(1), OtherWord]
  {
  }

  lemma ExtractAllThisIsAOneTwentyReadings(shortScale: bool)
    ensures Tokens(["this", "is", "a", "one", "twenty", "one", "test"], shortScale) == [OtherWord, OtherWord, OtherWord, UnitWord(1), TensWord(20), UnitWord(1), OtherWord]
  {
    var w0, w1 := ["this", "is", "a", "one"], ["twenty", "one", "test"];
    var t0, t1 := [OtherWord, OtherWord, OtherWord, UnitWord(1)], [TensWord(20), UnitWord(1), OtherWord];
    ExtractAllThisIsAOneTwentyReadings0(w0, t0, shortScale);
    ExtractAllThisIsAOneTwentyReadings1(w1, t1, shortScale);
    TokensJoin(w0, w1, t0, t1, shortScale);
    ExtractAllThisIsAOneTwentyWordChunks();
    ExtractAllThisIsAOneTwentyTokenChunks(shortScale);
  }

  lemma ExtractAllThisIsAOneTwentyScan0(ts: seq<Token>)
    requires ts == [OtherWord, OtherWord, OtherWord, UnitWord(1), TensWord(20), UnitWord(1), OtherWord]
    ensures Scan(ts, None, false) == [1, 21]
  {
    ExtractAllThisIsAOneTwentyScan1(ts[1..]);
  }

  lemma ExtractAllThisIsAOneTwentyScan1(ts: seq<Token>)
    requires ts == [OtherWord, OtherWord, UnitWord(1), TensWord(20), UnitWord(1), OtherWord]
    ensures Scan(ts, None, false) == [1, 21]
  {
    ExtractAllThisIsAOneTwentyScan2(ts[1..]);
  }

  lemma ExtractAllThisIsAOneTwentyScan2(ts: seq<Token>)
    requires ts == [OtherWord, UnitWord(1), TensWord(20), UnitWord(1), OtherWord]
    ensures Scan(ts, None, false) == [1, 21]
  {
    ExtractAllThisIsAOneTwentyScan3(ts[1..]);
  }

  lemma ExtractAllThisIsAOneTwentyScan3(ts: seq<Token>)
    requires ts == [UnitWord(1), TensWord(20), UnitWord(1), OtherWord]
    ensures Scan(ts, None, false) == [1, 21]
  {
    ExtractAllThisIsAOneTwentyScan4(ts[1..]);
  }

  lemma ExtractAllThisIsAOneTwentyScan4(ts: seq<Token>)
    requires ts == [TensWord(20), UnitWord(1), OtherWord]
    ensures Scan(ts, Some(Run(0, 1, UnitWord(1), false)), false) == [1, 21]
  {
    ExtractAllThisIsAOneTwentyScan5(ts[1..]);
  }

  lemma ExtractAllThisIsAOneTwentyScan5(ts: seq<Token>)
    requires ts == [UnitWord(1), OtherWord]
    ensures Scan(ts, Some(Run(0, 20, TensWord(20), false)), false) == [21]
  {
    ExtractAllThisIsAOneTwentyScan6(ts[1..]);
  }

  lemma ExtractAllThisIsAOneTwentyScan6(ts: seq<Token>)
    requires ts == [OtherWord]
    ensures Scan(ts, Some(Run(0, 21, UnitWord(1), false)), false) == [21]
  {
  }

  /** test/test_parse.py:905-906 */
  lemma ExtractAllThisIsAOneTwenty()
    ensures ExtractNumbers("this is a one twenty one  test", true) == [1, 21]
  {
    ExtractAllThisIsAOneTwentyWordsUpto7("this is a one twenty one  test");
    ExtractAllThisIsAOneTwentyReadings(true);
    ExtractAllThisIsAOneTwentyScan0([OtherWord, OtherWord, OtherWord, UnitWord(1), TensWord(20), UnitWord(1), OtherWord]);
  }

  lemma ExtractAll1DogCommaSevenPigsCommaMacdonaldWordsUpto1(s: string)
    requires s == "1"
    ensures Words(Lower(s)) == ["1"]
  {
    LowerWordsSingle(s, "1");
  }

  lemma ExtractAll1DogCommaSevenPigsCommaMacdonaldWordsUpto2(s: string)
    requires s == "1 dog,"
    ensures Words(Lower(s)) == ["1", "dog,"]
  {
    var p := s[..1];
    LowerWordsNext(s, p, 1, "dog,", "dog,");
    ExtractAll1DogCommaSevenPigsCommaMacdonaldWordsUpto1(p);
  }

  lemma ExtractAll1DogCommaSevenPigsCommaMacdonaldWordsUpto3(s: string)
    requires s == "1 dog, seven"
    ensures Words(Lower(s)) == ["1", "dog,", "seven"]
  {
    var p := s[..6];
    LowerWordsNext(s, p, 1, "seven", "seven");
    ExtractAll1DogCommaSevenPigsCommaMacdonaldWordsUpto2(p);
  }

  lemma ExtractAll1DogCommaSevenPigsCommaMacdonaldWordsUpto4(s: string)
    requires s == "1 dog, seven pigs,"
    ensures Words(Lower(s)) == ["1", "dog,", "seven", "pigs,"]
  {
    var p := s[..12];
    LowerWordsNext(s, p, 1, "pigs,", "pigs,");
    ExtractAll1DogCommaSevenPigsCommaMacdonaldWordsUpto3(p);
  }

  lemma ExtractAll1DogCommaSevenPigsCommaMacdonaldWordsUpto5(s: string)
    requires s == "1 dog, seven pigs, macdonald"
    ensures Words(Lower(s)) == ["1", "dog,", "seven", "pigs,", "macdonald"]
  {
    var p := s[..18];
    LowerWordsNext(s, p, 1, "macdonald", "macdonald");
    ExtractAll1DogCommaSevenPigsCommaMacdonaldWordsUpto4(p);
  }

  lemma ExtractAll1DogCommaSevenPigsCommaMacdonaldWordsUpto6(s: string)
    requires s == "1 dog, seven pigs, macdonald had"
    ensures Words(Lower(s)) == ["1", "dog,", "seven", "pigs,", "macdonald", "had"]
  {
    var p := s[..28];
    LowerWordsNext(s, p, 1, "had", "had");
    ExtractAll1DogCommaSevenPigsCommaMacdonaldWordsUpto5(p);
  }

  lemma ExtractAll1DogCommaSevenPigsCommaMacdonaldWordsUpto7(s: string)
    requires s == "1 dog, seven pigs, macdonald had a"
    ensures Words(Lower(s)) == ["1", "dog,", "seven", "pigs,", "macdonald", "had", "a"]
  {
    var p := s[..32];
    LowerWordsNext(s, p, 1, "a", "a");
    ExtractAll1DogCommaSevenPigsCommaMacdonaldWordsUpto6(p);
  }

  lemma ExtractAll1DogCommaSevenPigsCommaMacdonaldWordsUpto8(s: string)
    requires s == "1 dog, seven pigs, macdonald had a farm,"
    ensures Words(Lower(s)) == ["1", "dog,", "seven", "pigs,", "macdonald", "had", "a", "farm,"]
  {
    var p := s[..34];
    LowerWordsNext(s, p, 1, "farm,", "farm,");
    ExtractAll1DogCommaSevenPigsCommaMacdonaldWordsUpto7(p);
  }

  lemma ExtractAll1DogCommaSevenPigsCommaMacdonaldWordsUpto9(s: string)
    requires s == "1 dog, seven pigs, macdonald had a farm, 3"
    ensures Words(Lower(s)) == ["1", "dog,", "seven", "pigs,", "macdonald", "had", "a", "farm,", "3"]
  {
    var p := s[..40];
    LowerWordsNext(s, p, 1, "3", "3");
    ExtractAll1DogCommaSevenPigsCommaMacdonaldWordsUpto8(p);
  }

  lemma ExtractAll1DogCommaSevenPigsCommaMacdonaldWordsUpto10(s: string)
    requires s == "1 dog, seven pigs, macdonald had a farm, 3 times"
    ensures Words(Lower(s)) == ["1", "dog,", "seven", "pigs,", "macdonald", "had", "a", "farm,", "3", "times"]
  {
    var p := s[..42];
    LowerWordsNext(s, p, 1, "times", "times");
    ExtractAll1DogCommaSevenPigsCommaMacdonaldWordsUpto9(p);
  }

  lemma ExtractAll1DogCommaSevenPigsCommaMacdonaldWordsUpto11(s: string)
    requires s == "1 dog, seven pigs, macdonald had a farm, 3 times 5"
    ensures Words(Lower(s)) == ["1", "dog,", "seven", "pigs,", "macdonald", "had", "a", "farm,", "3", "times", "5"]
  {
    var p := s[..48];
    LowerWordsNext(s, p, 1, "5", "5");
    ExtractAll1DogCommaSevenPigsCommaMacdonaldWordsUpto10(p);
  }

  lemma ExtractAll1DogCommaSevenPigsCommaMacdonaldWordsUpto12(s: string)
    requires s == "1 dog, seven pigs, macdonald had a farm, 3 times 5 macarena"
    ensures Words(Lower(s)) == ["1", "dog,", "seven", "pigs,", "macdonald", "had", "a", "farm,", "3", "times", "5", "macarena"]
  {
    var p := s[..50];
    LowerWordsNext(s, p, 1, "macarena", "macarena");
    ExtractAll1DogCommaSevenPigsCommaMacdonaldWordsUpto11(p);
  }

  lemma ExtractAll1DogCommaSevenPigsCommaMacdonaldReadings0(ws: seq<string>, ts: seq<Token>, shortScale: bool)
    requires ws == ["1", "dog,", "seven", "pigs,"]
    requires ts == [Digits(1), OtherWord, UnitWord(7), OtherWord]
    ensures Tokens(ws, shortScale) == ts
  {
    forall i | 0 <= i < 4
      ensures Classify(ws[i], shortScale) == ts[i]
    {
      if i == 0 { Read1(shortScale); }
      else if i == 1 { ReadDogComma(shortScale); }
      else if i == 2 { ReadSeven(shortScale); }
      else if i == 3 { ReadPigsComma(shortScale); }
    }
    TokensOfReadings(ws, ts, shortScale);
  }

  lemma ExtractAll1DogCommaSevenPigsCommaMacdonaldReadings1(ws: seq<string>, ts: seq<Token>, shortScale: bool)
    requires ws == ["macdonald", "had", "a", "farm,"]
    requires ts == [OtherWord, OtherWord, OtherWord, OtherWord]
    ensures Tokens(ws, shortScale) == ts
  {
    forall i | 0 <= i < 4
      ensures Classify(ws[i], shortScale) == ts[i]
    {
      if i == 0 { ReadMacdonald(shortScale); }
      else if i == 1 { ReadHad(shortScale); }
      else if i == 2 { ReadA(shortScale); }
      else if i == 3 { ReadFarmComma(shortScale); }
    }
    TokensOfReadings(ws, ts, shortScale);
  }

  lemma ExtractAll1DogCommaSevenPigsCommaMacdonaldReadings2(ws: seq<string>, ts: seq<Token>, shortScale: bool)
    requires ws == ["3", "times", "5", "macarena"]
    requires ts == [Digits(3), OtherWord, Digits(5), OtherWord]
    ensures Tokens(ws, shortScale) == ts
  {
    forall i | 0 <= i < 4
      ensures Classify(ws[i], shortScale) == ts[i]
    {
      if i == 0 { Read3(shortScale); }
      else if i == 1 { ReadTimes(shortScale); }
      else if i == 2 { Read5(shortScale); }
      else if i == 3 { ReadMacarena(shortScale); }
    }
    TokensOfReadings(ws, ts, shortScale);
  }

  lemma ExtractAll1DogCommaSevenPigsCommaMacdonaldWordChunks()
    ensures ["1", "dog,", "seven", "pigs,", "macdonald", "had", "a", "farm,", "3", "times", "5", "macarena"] == ["1", "dog,", "seven", "pigs,"] + ["macdonald", "had", "a", "farm,"] + ["3", "times", "5", "macarena"]
  {
  }

  lemma ExtractAll1DogCommaSevenPigsCommaMacdonaldTokenChunks(shortScale: bool)
    ensures [Digits(1), OtherWord, UnitWord(7), OtherWord, OtherWord, OtherWord, OtherWord, OtherWord, Digits(3), OtherWord, Digits(5), OtherWord] == [Digits(1), OtherWord, UnitWord(7), OtherWord] + [OtherWord, OtherWord, OtherWord, OtherWord] + [Digits(3), OtherWord, Digits(5), OtherWord]
  {
  }

  lemma ExtractAll1DogCommaSevenPigsCommaMacdonaldReadings(shortScale: bool)
    ensures Tokens(["1", "dog,", "seven", "pigs,", "macdonald", "had", "a", "farm,", "3", "times", "5", "macarena"], shortScale) == [Digits(1), OtherWord, UnitWord(7), OtherWord, OtherWord, OtherWord, OtherWord, OtherWord, Digits(3), OtherWord, Digits(5), OtherWord]
  {
    var w0, w1, w2 := ["1", "dog,", "seven", "pigs,"], ["macdonald", "had", "a", "farm,"], ["3", "times", "5", "macarena"];
    var t0, t1, t2 := [Digits(1), OtherWord, UnitWord(7), OtherWord], [OtherWord, OtherWord, OtherWord, OtherWord], [Digits(3), OtherWord, Digits(5), OtherWord];
    ExtractAll1DogCommaSevenPigsCommaMacdonaldReadings0(w0, t0, shortScale);
    ExtractAll1DogCommaSevenPigsCommaMacdonaldReadings1(w1, t1, shortScale);
    ExtractAll1DogCommaSevenPigsCommaMacdonaldReadings2(w2, t2, shortScale);
    TokensJoin(w0, w1, t0, t1, shortScale);
    TokensJoin(w0 + w1, w2, t0 + t1, t2, shortScale);
    ExtractAll1DogCommaSevenPigsCommaMacdonaldWordChunks();
    ExtractAll1DogCommaSevenPigsCommaMacdonaldTokenChunks(shortScale);
  }

  lemma ExtractAll1DogCommaSevenPigsCommaMacdonaldScan0(ts: seq<Token>)
    requires ts == [Digits(1), OtherWord, UnitWord(7), OtherWord, OtherWord, OtherWord, OtherWord, OtherWord, Digits(3), OtherWord, Digits(5), OtherWord]
    ensures Scan(ts, None, false) == [1, 7, 3, 5]
  {
    ExtractAll1DogCommaSevenPigsCommaMacdonaldScan1(ts[1..]);
  }

  lemma ExtractAll1DogCommaSevenPigsCommaMacdonaldScan1(ts: seq<Token>)
    requires ts == [OtherWord, UnitWord(7), OtherWord, OtherWord, OtherWord, OtherWord, OtherWord, Digits(3), OtherWord, Digits(5), OtherWord]
    ensures Scan(ts, Some(Run(0, 1, Digits(1), false)), false) == [1, 7, 3, 5]
  {
    ExtractAll1DogCommaSevenPigsCommaMacdonaldScan2(ts[1..]);
  }

  lemma ExtractAll1DogCommaSevenPigsCommaMacdonaldScan2(ts: seq<Token>)
    requires ts == [UnitWord(7), OtherWord, OtherWord, OtherWord, OtherWord, OtherWord, Digits(3), OtherWord, Digits(5), OtherWord]
    ensures Scan(ts, None, false) == [7, 3, 5]
  {
    ExtractAll1DogCommaSevenPigsCommaMacdonaldScan3(ts[1..]);
  }

  lemma ExtractAll1DogCommaSevenPigsCommaMacdonaldScan3(ts: seq<Token>)
    requires ts == [OtherWord, OtherWord, OtherWord, OtherWord, OtherWord, Digits(3), OtherWord, Digits(5), OtherWord]
    ensures Scan(ts, Some(Run(0, 7, UnitWord(7), false)), false) == [7, 3, 5]
  {
    ExtractAll1DogCommaSevenPigsCommaMacdonaldScan4(ts[1..]);
  }

  lemma ExtractAll1DogCommaSevenPigsCommaMacdonaldScan4(ts: seq<Token>)
    requires ts == [OtherWord, OtherWord, OtherWord, OtherWord, Digits(3), OtherWord, Digits(5), OtherWord]
    ensures Scan(ts, None, false) == [3, 5]
  {
    ExtractAll1DogCommaSevenPigsCommaMacdonaldScan5(ts[1..]);
  }

  lemma ExtractAll1DogCommaSevenPigsCommaMacdonaldScan5(ts: seq<Token>)
    requires ts == [OtherWord, OtherWord, OtherWord, Digits(3), OtherWord, Digits(5), OtherWord]
    ensures Scan(ts, None, false) == [3, 5]
  {
    ExtractAll1DogCommaSevenPigsCommaMacdonaldScan6(ts[1..]);
  }

  lemma ExtractAll1DogCommaSevenPigsCommaMacdonaldScan6(ts: seq<Token>)
    requires ts == [OtherWord, OtherWord, Digits(3), OtherWord, Digits(5), OtherWord]
    ensures Scan(ts, None, false) == [3, 5]
  {
    ExtractAll1DogCommaSevenPigsCommaMacdonaldScan7(ts[1..]);
  }

  lemma ExtractAll1DogCommaSevenPigsCommaMacdonaldScan7(ts: seq<Token>)
    requires ts == [OtherWord, Digits(3), OtherWord, Digits(5), OtherWord]
    ensures Scan(ts, None, false) == [3, 5]
  {
    ExtractAll1DogCommaSevenPigsCommaMacdonaldScan8(ts[1..]);
  }

  lemma ExtractAll1DogCommaSevenPigsCommaMacdonaldScan8(ts: seq<Token>)
    requires ts == [Digits(3), OtherWord, Digits(5), OtherWord]
    ensures Scan(ts, None, false) == [3, 5]
  {
    ExtractAll1DogCommaSevenPigsCommaMacdonaldScan9(ts[1..]);
  }

  lemma ExtractAll1DogCommaSevenPigsCommaMacdonaldScan9(ts: seq<Token>)
    requires ts == [OtherWord, Digits(5), OtherWord]
    ensures Scan(ts, Some(Run(0, 3, Digits(3), false)), false) == [3, 5]
  {
    ExtractAll1DogCommaSevenPigsCommaMacdonaldScan10(ts[1..]);
  }

  lemma ExtractAll1DogCommaSevenPigsCommaMacdonaldScan10(ts: seq<Token>)
    requires ts == [Digits(5), OtherWord]
    ensures Scan(ts, None, false) == [5]
  {
    ExtractAll1DogCommaSevenPigsCommaMacdonaldScan11(ts[1..]);
  }

  lemma ExtractAll1DogCommaSevenPigsCommaMacdonaldScan11(ts: seq<Token>)
    requires ts == [OtherWord]
    ensures Scan(ts, Some(Run(0, 5, Digits(5), false)), false) == [5]
  {
  }

  /** test/test_parse.py:907-909 */
  lemma ExtractAll1DogCommaSevenPigsCommaMacdonald()
    ensures ExtractNumbers("1 dog, seven pigs, macdonald had a farm, 3 times 5 macarena", true) == [1, 7, 3, 5]
  {
    ExtractAll1DogCommaSevenPigsCommaMacdonaldWordsUpto12("1 dog, seven pigs, macdonald had a farm, 3 times 5 macarena");
    ExtractAll1DogCommaSevenPigsCommaMacdonaldReadings(true);
    ExtractAll1DogCommaSevenPigsCommaMacdonaldScan0([Digits(1), OtherWord, UnitWord(7), OtherWord, OtherWord, OtherWord, OtherWord, OtherWord, Digits(3), OtherWord, Digits(5), OtherWord]);
  }

  lemma ExtractAllTwoBeersForTwoBearsWordsUpto1(s: string)
    requires s == "two"
    ensures Words(Lower(s)) == ["two"]
  {
    LowerWordsSingle(s, "two");
  }

  lemma ExtractAllTwoBeersForTwoBearsWordsUpto2(s: string)
    requires s == "two beers"
    ensures Words(Lower(s)) == ["two", "beers"]
  {
    var p := s[..3];
    LowerWordsNext(s, p, 1, "beers", "beers");
    ExtractAllTwoBeersForTwoBearsWordsUpto1(p);
  }

  lemma ExtractAllTwoBeersForTwoBearsWordsUpto3(s: string)
    requires s == "two beers for"
    ensures Words(Lower(s)) == ["two", "beers", "for"]
  {
    var p := s[..9];
    LowerWordsNext(s, p, 1, "for", "for");
    ExtractAllTwoBeersForTwoBearsWordsUpto2(p);
  }

  lemma ExtractAllTwoBeersForTwoBearsWordsUpto4(s: string)
    requires s == "two beers for two"
    ensures Words(Lower(s)) == ["two", "beers", "for", "two"]
  {
    var p := s[..13];
    LowerWordsNext(s, p, 1, "two", "two");
    ExtractAllTwoBeersForTwoBearsWordsUpto3(p);
  }

  lemma ExtractAllTwoBeersForTwoBearsWordsUpto5(s: string)
    requires s == "two beers for two bears"
    ensures Words(Lower(s)) == ["two", "beers", "for", "two", "bears"]
  {
    var p := s[..17];
    LowerWordsNext(s, p, 1, "bears", "bears");
    ExtractAllTwoBeersForTwoBearsWordsUpto4(p);
  }

  lemma ExtractAllTwoBeersForTwoBearsReadings0(ws: seq<string>, ts: seq<Token>, shortScale: bool)
    requires ws == ["two", "beers", "for", "two"]
    requires ts == [UnitWord(2), OtherWord, OtherWord, UnitWord(2)]
    ensures Tokens(ws, shortScale) == ts
  {
    forall i | 0 <= i < 4
      ensures Classify(ws[i], shortScale) == ts[i]
    {
      if i == 0 { ReadTwo(shortScale); }
      else if i == 1 { ReadBeers(shortScale); }
      else if i == 2 { ReadFor(shortScale); }
      else if i == 3 { ReadTwo(shortScale); }
    }
    TokensOfReadings(ws, ts, shortScale);
  }

  lemma ExtractAllTwoBeersForTwoBearsReadings1(ws: seq<string>, ts: seq<Token>, shortScale: bool)
    requires ws == ["bears"]
    requires ts == [OtherWord]
    ensures Tokens(ws, shortScale) == ts
  {
    forall i | 0 <= i < 1
      ensures Classify(ws[i], shortScale) == ts[i]
    {
      if i == 0 { ReadBears(shortScale); }
    }
    TokensOfReadings(ws, ts, shortScale);
  }

  lemma ExtractAllTwoBeersForTwoBearsWordChunks()
    ensures ["two", "beers", "for", "two", "bears"] == ["two", "beers", "for", "two"] + ["bears"]
  {
  }

  lemma ExtractAllTwoBeersForTwoBearsTokenChunks(shortScale: bool)
    ensures [UnitWord(2), OtherWord, OtherWord, UnitWord(2), OtherWord] == [UnitWord(2), OtherWord, OtherWord, UnitWord(2)] + [OtherWord]
  {
  }

  lemma ExtractAllTwoBeersForTwoBearsReadings(shortScale: bool)
    ensures Tokens(["two", "beers", "for", "two", "bears"], shortScale) == [UnitWord(2), OtherWord, OtherWord, UnitWord(2), OtherWord]
  {
    var w0, w1 := ["two", "beers", "for", "two"], ["bears"];
    var t0, t1 := [UnitWord(2), OtherWord, OtherWord, UnitWord(2)], [OtherWord];
    ExtractAllTwoBeersForTwoBearsReadings0(w0, t0, shortScale);
    ExtractAllTwoBeersForTwoBearsReadings1(w1, t1, shortScale);
    TokensJoin(w0, w1, t0, t1, shortScale);
    ExtractAllTwoBeersForTwoBearsWordChunks();
    ExtractAllTwoBeersForTwoBearsTokenChunks(shortScale);
  }

  lemma ExtractAllTwoBeersForTwoBearsScan0(ts: seq<Token>)
    requires ts == [UnitWord(2), OtherWord, OtherWord, UnitWord(2), OtherWord]
    ensures Scan(ts, None, false) == [2, 2]
  {
    ExtractAllTwoBeersForTwoBearsScan1(ts[1..]);
  }

  lemma ExtractAllTwoBeersForTwoBearsScan1(ts: seq<Token>)
    requires ts == [OtherWord, OtherWord, UnitWord(2), OtherWord]
    ensures Scan(ts, Some(Run(0, 2, UnitWord(2), false)), false) == [2, 2]
  {
    ExtractAllTwoBeersForTwoBearsScan2(ts[1..]);
  }

  lemma ExtractAllTwoBeersForTwoBearsScan2(ts: seq<Token>)
    requires ts == [OtherWord, UnitWord(2), OtherWord]
    ensures Scan(ts, None, false) == [2]
  {
    ExtractAllTwoBeersForTwoBearsScan3(ts[1..]);
  }

  lemma ExtractAllTwoBeersForTwoBearsScan3(ts: seq<Token>)
    requires ts == [UnitWord(2), OtherWord]
    ensures Scan(ts, None, false) == [2]
  {
    ExtractAllTwoBeersForTwoBearsScan4(ts[1..]);
  }

  lemma ExtractAllTwoBeersForTwoBearsScan4(ts: seq<Token>)
    requires ts == [OtherWord]
    ensures Scan(ts, Some(Run(0, 2, UnitWord(2), false)), false) == [2]
  {
  }

  /** test/test_parse.py:910-911 */
  lemma ExtractAllTwoBeersForTwoBears()
    ensures ExtractNumbers("two beers for two bears", true) == [2, 2]
  {
    ExtractAllTwoBeersForTwoBearsWordsUpto5("two beers for two bears");
    ExtractAllTwoBeersForTwoBearsReadings(true);
    ExtractAllTwoBeersForTwoBearsScan0([UnitWord(2), OtherWord, OtherWord, UnitWord(2), OtherWord]);
  }

  lemma ExtractAllTwenty20TwentyWordsUpto1(s: string)
    requires s == "twenty"
    ensures Words(Lower(s)) == ["twenty"]
  {
    LowerWordsSingle(s, "twenty");
  }

  lemma ExtractAllTwenty20TwentyWordsUpto2(s: string)
    requires s == "twenty 20"
    ensures Words(Lower(s)) == ["twenty", "20"]
  {
    var p := s[..6];
    LowerWordsNext(s, p, 1, "20", "20");
    ExtractAllTwenty20TwentyWordsUpto1(p);
  }

  lemma ExtractAllTwenty20TwentyWordsUpto3(s: string)
    requires s == "twenty 20 twenty"
    ensures Words(Lower(s)) == ["twenty", "20", "twenty"]
  {
    var p := s[..9];
    LowerWordsNext(s, p, 1, "twenty", "twenty");
    ExtractAllTwenty20TwentyWordsUpto2(p);
  }

  lemma ExtractAllTwenty20TwentyReadings0(ws: seq<string>, ts: seq<Token>, shortScale: bool)
    requires ws == ["twenty", "20", "twenty"]
    requires ts == [TensWord(20), Digits(20), TensWord(20)]
    ensures Tokens(ws, shortScale) == ts
  {
    forall i | 0 <= i < 3
      ensures Classify(ws[i], shortScale) == ts[i]
    {
      if i == 0 { ReadTwenty(shortScale); }
      else if i == 1 { Read20(shortScale); }
      else if i == 2 { ReadTwenty(shortScale); }
    }
    TokensOfReadings(ws, ts, shortScale);
  }

  lemma ExtractAllTwenty20TwentyReadings(shortScale: bool)
    ensures Tokens(["twenty", "20", "twenty"], shortScale) == [TensWord(20), Digits(20), TensWord(20)]
  {
    ExtractAllTwenty20TwentyReadings0(["twenty", "20", "twenty"], [TensWord(20), Digits(20), TensWord(20)], shortScale);
  }

  lemma ExtractAllTwenty20TwentyScan0(ts: seq<Token>)
    requires ts == [TensWord(20), Digits(20), TensWord(20)]
    ensures Scan(ts, None, false) == [20, 20, 20]
  {
    ExtractAllTwenty20TwentyScan1(ts[1..]);
  }

  lemma ExtractAllTwenty20TwentyScan1(ts: seq<Token>)
    requires ts == [Digits(20), TensWord(20)]
    ensures Scan(ts, Some(Run(0, 20, TensWord(20), false)), false) == [20, 20, 20]
  {
    ExtractAllTwenty20TwentyScan2(ts[1..]);
  }

  lemma ExtractAllTwenty20TwentyScan2(ts: seq<Token>)
    requires ts == [TensWord(20)]
    ensures Scan(ts, Some(Run(0, 20, Digits(20), false)), false) == [20, 20]
  {
  }

  /** test/test_parse.py:912-913 */
  lemma ExtractAllTwenty20Twenty()
    ensures ExtractNumbers("twenty 20 twenty", true) == [20, 20, 20]
  {
    ExtractAllTwenty20TwentyWordsUpto3("twenty 20 twenty");
    ExtractAllTwenty20TwentyReadings(true);
    ExtractAllTwenty20TwentyScan0([TensWord(20), Digits(20), TensWord(20)]);
  }

  lemma ExtractAllTwenty2022WordsUpto1(s: string)
    requires s == "twenty"
    ensures Words(Lower(s)) == ["twenty"]
  {
    LowerWordsSingle(s, "twenty");
  }

  lemma ExtractAllTwenty2022WordsUpto2(s: string)
    requires s == "twenty 20"
    ensures Words(Lower(s)) == ["twenty", "20"]
  {
    var p := s[..6];
    LowerWordsNext(s, p, 1, "20", "20");
    ExtractAllTwenty2022WordsUpto1(p);
  }

  lemma ExtractAllTwenty2022WordsUpto3(s: string)
    requires s == "twenty 20 22"
    ensures Words(Lower(s)) == ["twenty", "20", "22"]
  {
    var p := s[..9];
    LowerWordsNext(s, p, 1, "22", "22");
    ExtractAllTwenty2022WordsUpto2(p);
  }

  lemma ExtractAllTwenty2022Readings0(ws: seq<string>, ts: seq<Token>, shortScale: bool)
    requires ws == ["twenty", "20", "22"]
    requires ts == [TensWord(20), Digits(20), Digits(22)]
    ensures Tokens(ws, shortScale) == ts
  {
    forall i | 0 <= i < 3
      ensures Classify(ws[i], shortScale) == ts[i]
    {
      if i == 0 { ReadTwenty(shortScale); }
      else if i == 1 { Read20(shortScale); }
      else if i == 2 { Read22(shortScale); }
    }
    TokensOfReadings(ws, ts, shortScale);
  }

  lemma ExtractAllTwenty2022Readings(shortScale: bool)
    ensures Tokens(["twenty", "20", "22"], shortScale) == [TensWord(20), Digits(20), Digits(22)]
  {
    ExtractAllTwenty2022Readings0(["twenty", "20", "22"], [TensWord(20), Digits(20), Digits(22)], shortScale);
  }

  lemma ExtractAllTwenty2022Scan0(ts: seq<Token>)
    requires ts == [TensWord(20), Digits(20), Digits(22)]
    ensures Scan(ts, None, false) == [20, 20, 22]
  {
    ExtractAllTwenty2022Scan1(ts[1..]);
  }

  lemma ExtractAllTwenty2022Scan1(ts: seq<Token>)
    requires ts == [Digits(20), Digits(22)]
    ensures Scan(ts, Some(Run(0, 20, TensWord(20), false)), false) == [20, 20, 22]
  {
    ExtractAllTwenty2022Scan2(ts[1..]);
  }

  lemma ExtractAllTwenty2022Scan2(ts: seq<Token>)
    requires ts == [Digits(22)]
    ensures Scan(ts, Some(Run(0, 20, Digits(20), false)), false) == [20, 22]
  {
  }

  /** test/test_parse.py:914-915 */
  lemma ExtractAllTwenty2022()
    ensures ExtractNumbers("twenty 20 22", true) == [20, 20, 22]
  {
    ExtractAllTwenty2022WordsUpto3("twenty 20 22");
    ExtractAllTwenty2022Readings(true);
    ExtractAllTwenty2022Scan0([TensWord(20), Digits(20), Digits(22)]);
  }

  lemma ExtractAllTwentyTwentyTwoTwentyWordsUpto1(s: string)
    requires s == "twenty"
    ensures Words(Lower(s)) == ["twenty"]
  {
    LowerWordsSingle(s, "twenty");
  }

  lemma ExtractAllTwentyTwentyTwoTwentyWordsUpto2(s: string)
    requires s == "twenty twenty"
    ensures Words(Lower(s)) == ["twenty", "twenty"]
  {
    var p := s[..6];
    LowerWordsNext(s, p, 1, "twenty", "twenty");
    ExtractAllTwentyTwentyTwoTwentyWordsUpto1(p);
  }

  lemma ExtractAllTwentyTwentyTwoTwentyWordsUpto3(s: string)
    requires s == "twenty twenty two"
    ensures Words(Lower(s)) == ["twenty", "twenty", "two"]
  {
    var p := s[..13];
    LowerWordsNext(s, p, 1, "two", "two");
    ExtractAllTwentyTwentyTwoTwentyWordsUpto2(p);
  }

  lemma ExtractAllTwentyTwentyTwoTwentyWordsUpto4(s: string)
    requires s == "twenty twenty two twenty"
    ensures Words(Lower(s)) == ["twenty", "twenty", "two", "twenty"]
  {
    var p := s[..17];
    LowerWordsNext(s, p, 1, "twenty", "twenty");
    ExtractAllTwentyTwentyTwoTwentyWordsUpto3(p);
  }

  lemma ExtractAllTwentyTwentyTwoTwentyReadings0(ws: seq<string>, ts: seq<Token>, shortScale: bool)
    requires ws == ["twenty", "twenty", "two", "twenty"]
    requires ts == [TensWord(20), TensWord(20), UnitWord(2), TensWord(20)]
    ensures Tokens(ws, shortScale) == ts
  {
    forall i | 0 <= i < 4
      ensures Classify(ws[i], shortScale) == ts[i]
    {
      if i == 0 { ReadTwenty(shortScale); }
      else if i == 1 { ReadTwenty(shortScale); }
      else if i == 2 { ReadTwo(shortScale); }
      else if i == 3 { ReadTwenty(shortScale); }
    }
    TokensOfReadings(ws, ts, shortScale);
  }

  lemma ExtractAllTwentyTwentyTwoTwentyReadings(shortScale: bool)
    ensures Tokens(["twenty", "twenty", "two", "twenty"], shortScale) == [TensWord(20), TensWord(20), UnitWord(2), TensWord(20)]
  {
    ExtractAllTwentyTwentyTwoTwentyReadings0(["twenty", "twenty", "two", "twenty"], [TensWord(20), TensWord(20), UnitWord(2), TensWord(20)], shortScale);
  }

  lemma ExtractAllTwentyTwentyTwoTwentyScan0(ts: seq<Token>)
    requires ts == [TensWord(20), TensWord(20), UnitWord(2), TensWord(20)]
    ensures Scan(ts, None, false) == [20, 22, 20]
  {
    ExtractAllTwentyTwentyTwoTwentyScan1(ts[1..]);
  }

  lemma ExtractAllTwentyTwentyTwoTwentyScan1(ts: seq<Token>)
    requires ts == [TensWord(20), UnitWord(2), TensWord(20)]
    ensures Scan(ts, Some(Run(0, 20, TensWord(20), false)), false) == [20, 22, 20]
  {
    ExtractAllTwentyTwentyTwoTwentyScan2(ts[1..]);
  }

  lemma ExtractAllTwentyTwentyTwoTwentyScan2(ts: seq<Token>)
    requires ts == [UnitWord(2), TensWord(20)]
    ensures Scan(ts, Some(Run(0, 20, TensWord(20), false)), false) == [22, 20]
  {
    ExtractAllTwentyTwentyTwoTwentyScan3(ts[1..]);
  }

  lemma ExtractAllTwentyTwentyTwoTwentyScan3(ts: seq<Token>)
    requires ts == [TensWord(20)]
    ensures Scan(ts, Some(Run(0, 22, UnitWord(2), false)), false) == [22, 20]
  {
  }

  /** test/test_parse.py:916-917 */
  lemma ExtractAllTwentyTwentyTwoTwenty()
    ensures ExtractNumbers("twenty twenty two twenty", true) == [20, 22, 20]
  {
    ExtractAllTwentyTwentyTwoTwentyWordsUpto4("twenty twenty two twenty");
    ExtractAllTwentyTwentyTwoTwentyReadings(true);
    ExtractAllTwentyTwentyTwoTwentyScan0([TensWord(20), TensWord(20), UnitWord(2), TensWord(20)]);
  }

  lemma ExtractAllTwenty2WordsUpto1(s: string)
    requires s == "twenty"
    ensures Words(Lower(s)) == ["twenty"]
  {
    LowerWordsSingle(s, "twenty");
  }

  lemma ExtractAllTwenty2WordsUpto2(s: string)
    requires s == "twenty 2"
    ensures Words(Lower(s)) == ["twenty", "2"]
  {
    var p := s[..6];
    LowerWordsNext(s, p, 1, "2", "2");
    ExtractAllTwenty2WordsUpto1(p);
  }

  lemma ExtractAllTwenty2Readings0(ws: seq<string>, ts: seq<Token>, shortScale: bool)
    requires ws == ["twenty", "2"]
    requires ts == [TensWord(20), Digits(2)]
    ensures Tokens(ws, shortScale) == ts
  {
    forall i | 0 <= i < 2
      ensures Classify(ws[i], shortScale) == ts[i]
    {
      if i == 0 { ReadTwenty(shortScale); }
      else if i == 1 { Read2(shortScale); }
    }
    TokensOfReadings(ws, ts, shortScale);
  }

  lemma ExtractAllTwenty2Readings(shortScale: bool)
    ensures Tokens(["twenty", "2"], shortScale) == [TensWord(20), Digits(2)]
  {
    ExtractAllTwenty2Readings0(["twenty", "2"], [TensWord(20), Digits(2)], shortScale);
  }

  lemma ExtractAllTwenty2Scan0(ts: seq<Token>)
    requires ts == [TensWord(20), Digits(2)]
    ensures Scan(ts, None, false) == [22]
  {
    ExtractAllTwenty2Scan1(ts[1..]);
  }

  lemma ExtractAllTwenty2Scan1(ts: seq<Token>)
    requires ts == [Digits(2)]
    ensures Scan(ts, Some(Run(0, 20, TensWord(20), false)), false) == [22]
  {
  }

  /** test/test_parse.py:918-919 */
  lemma ExtractAllTwenty2()
    ensures ExtractNumbers("twenty 2", true) == [22]
  {
    ExtractAllTwenty2WordsUpto2("twenty 2");
    ExtractAllTwenty2Readings(true);
    ExtractAllTwenty2Scan0([TensWord(20), Digits(2)]);
  }

  lemma ExtractAllTwenty20Twenty2WordsUpto1(s: string)
    requires s == "twenty"
    ensures Words(Lower(s)) == ["twenty"]
  {
    LowerWordsSingle(s, "twenty");
  }

  lemma ExtractAllTwenty20Twenty2WordsUpto2(s: string)
    requires s == "twenty 20"
    ensures Words(Lower(s)) == ["twenty", "20"]
  {
    var p := s[..6];
    LowerWordsNext(s, p, 1, "20", "20");
    ExtractAllTwenty20Twenty2WordsUpto1(p);
  }

  lemma ExtractAllTwenty20Twenty2WordsUpto3(s: string)
    requires s == "twenty 20 twenty"
    ensures Words(Lower(s)) == ["twenty", "20", "twenty"]
  {
    var p := s[..9];
    LowerWordsNext(s, p, 1, "twenty", "twenty");
    ExtractAllTwenty20Twenty2WordsUpto2(p);
  }

  lemma ExtractAllTwenty20Twenty2WordsUpto4(s: string)
    requires s == "twenty 20 twenty 2"
    ensures Words(Lower(s)) == ["twenty", "20", "twenty", "2"]
  {
    var p := s[..16];
    LowerWordsNext(s, p, 1, "2", "2");
    ExtractAllTwenty20Twenty2WordsUpto3(p);
  }

  lemma ExtractAllTwenty20Twenty2Readings0(ws: seq<string>, ts: seq<Token>, shortScale: bool)
    requires ws == ["twenty", "20", "twenty", "2"]
    requires ts == [TensWord(20), Digits(20), TensWord(20), Digits(2)]
    ensures Tokens(ws, shortScale) == ts
  {
    forall i | 0 <= i < 4
      ensures Classify(ws[i], shortScale) == ts[i]
    {
      if i == 0 { ReadTwenty(shortScale); }
      else if i == 1 { Read20(shortScale); }
      else if i == 2 { ReadTwenty(shortScale); }
      else if i == 3 { Read2(shortScale); }
    }
    TokensOfReadings(ws, ts, shortScale);
  }

  lemma ExtractAllTwenty20Twenty2Readings(shortScale: bool)
    ensures Tokens(["twenty", "20", "twenty", "2"], shortScale) == [TensWord(20), Digits(20), TensWord(20), Digits(2)]
  {
    ExtractAllTwenty20Twenty2Readings0(["twenty", "20", "twenty", "2"], [TensWord(20), Digits(20), TensWord(20), Digits(2)], shortScale);
  }

  lemma ExtractAllTwenty20Twenty2Scan0(ts: seq<Token>)
    requires ts == [TensWord(20), Digits(20), TensWord(20), Digits(2)]
    ensures Scan(ts, None, false) == [20, 20, 22]
  {
    ExtractAllTwenty20Twenty2Scan1(ts[1..]);
  }

  lemma ExtractAllTwenty20Twenty2Scan1(ts: seq<Token>)
    requires ts == [Digits(20), TensWord(20), Digits(2)]
    ensures Scan(ts, Some(Run(0, 20, TensWord(20), false)), false) == [20, 20, 22]
  {
    ExtractAllTwenty20Twenty2Scan2(ts[1..]);
  }

  lemma ExtractAllTwenty20Twenty2Scan2(ts: seq<Token>)
    requires ts == [TensWord(20), Digits(2)]
    ensures Scan(ts, Some(Run(0, 20, Digits(20), false)), false) == [20, 22]
  {
    ExtractAllTwenty20Twenty2Scan3(ts[1..]);
  }

  lemma ExtractAllTwenty20Twenty2Scan3(ts: seq<Token>)
    requires ts == [Digits(2)]
    ensures Scan(ts, Some(Run(0, 20, TensWord(20), false)), false) == [22]
  {
  }

  /** test/test_parse.py:920-921 */
  lemma ExtractAllTwenty20Twenty2()
    ensures ExtractNumbers("twenty 20 twenty 2", true) == [20, 20, 22]
  {
    ExtractAllTwenty20Twenty2WordsUpto4("twenty 20 twenty 2");
    ExtractAllTwenty20Twenty2Readings(true);
    ExtractAllTwenty20Twenty2Scan0([TensWord(20), Digits(20), TensWord(20), Digits(2)]);
  }

  lemma ExtractAllSixTrillionScan0(ts: seq<Token>)
    requires ts == [UnitWord(6), ScaleWord(1000000000000)]
    ensures Scan(ts, None, false) == [6000000000000]
  {
    ExtractAllSixTrillionScan1(ts[1..]);
  }

  lemma ExtractAllSixTrillionScan1(ts: seq<Token>)
    requires ts == [ScaleWord(1000000000000)]
    ensures Scan(ts, Some(Run(0, 6, UnitWord(6), false)), false) == [6000000000000]
  {
  }

  /** test/test_parse.py:925-926 */
  lemma ExtractAllSixTrillion()
    ensures ExtractNumbers("six trillion", true) == [6000000000000]
  {
    ExtractSixTrillionWordsUpto2("six trillion");
    ExtractSixTrillionReadings(true);
    ScaleValuesTrillion();
    ExtractAllSixTrillionScan0([UnitWord(6), ScaleWord(1000000000000)]);
  }

  lemma ExtractAllSixTrillionLongScaleScan0(ts: seq<Token>)
    requires ts == [UnitWord(6), ScaleWord(1000000000000000000)]
    ensures Scan(ts, None, false) == [6000000000000000000]
  {
    ExtractAllSixTrillionLongScaleScan1(ts[1..]);
  }

  lemma ExtractAllSixTrillionLongScaleScan1(ts: seq<Token>)
    requires ts == [ScaleWord(1000000000000000000)]
    ensures Scan(ts, Some(Run(0, 6, UnitWord(6), false)), false) == [6000000000000000000]
  {
  }

  /** test/test_parse.py:927-928 */
  lemma ExtractAllSixTrillionLongScale()
    ensures ExtractNumbers("six trillion", false) == [6000000000000000000]
  {
    ExtractSixTrillionWordsUpto2("six trillion");
    ExtractSixTrillionReadings(false);
    ScaleValuesTrillion();
    ExtractAllSixTrillionLongScaleScan0([UnitWord(6), ScaleWord(1000000000000000000)]);
  }

  lemma ExtractAllTwoPigsAndSixTrillionWordsUpto1(s: string)
    requires s == "two"
    ensures Words(Lower(s)) == ["two"]
  {
    LowerWordsSingle(s, "two");
  }

  lemma ExtractAllTwoPigsAndSixTrillionWordsUpto2(s: string)
    requires s == "two pigs"
    ensures Words(Lower(s)) == ["two", "pigs"]
  {
    var p := s[..3];
    LowerWordsNext(s, p, 1, "pigs", "pigs");
    ExtractAllTwoPigsAndSixTrillionWordsUpto1(p);
  }

  lemma ExtractAllTwoPigsAndSixTrillionWordsUpto3(s: string)
    requires s == "two pigs and"
    ensures Words(Lower(s)) == ["two", "pigs", "and"]
  {
    var p := s[..8];
    LowerWordsNext(s, p, 1, "and", "and");
    ExtractAllTwoPigsAndSixTrillionWordsUpto2(p);
  }

  lemma ExtractAllTwoPigsAndSixTrillionWordsUpto4(s: string)
    requires s == "two pigs and six"
    ensures Words(Lower(s)) == ["two", "pigs", "and", "six"]
  {
    var p := s[..12];
    LowerWordsNext(s, p, 1, "six", "six");
    ExtractAllTwoPigsAndSixTrillionWordsUpto3(p);
  }

  lemma ExtractAllTwoPigsAndSixTrillionWordsUpto5(s: string)
    requires s == "two pigs and six trillion"
    ensures Words(Lower(s)) == ["two", "pigs", "and", "six", "trillion"]
  {
    var p := s[..16];
    LowerWordsNext(s, p, 1, "trillion", "trillion");
    ExtractAllTwoPigsAndSixTrillionWordsUpto4(p);
  }

  lemma ExtractAllTwoPigsAndSixTrillionWordsUpto6(s: string)
    requires s == "two pigs and six trillion bacteria"
    ensures Words(Lower(s)) == ["two", "pigs", "and", "six", "trillion", "bacteria"]
  {
    var p := s[..25];
    LowerWordsNext(s, p, 1, "bacteria", "bacteria");
    ExtractAllTwoPigsAndSixTrillionWordsUpto5(p);
  }

  lemma ExtractAllTwoPigsAndSixTrillionReadings0(ws: seq<string>, ts: seq<Token>, shortScale: bool)
    requires ws == ["two", "pigs", "and", "six"]
    requires ts == [UnitWord(2), OtherWord, AndWord, UnitWord(6)]
    ensures Tokens(ws, shortScale) == ts
  {
    forall i | 0 <= i < 4
      ensures Classify(ws[i], shortScale) == ts[i]
    {
      if i == 0 { ReadTwo(shortScale); }
      else if i == 1 { ReadPigs(shortScale); }
      else if i == 2 { ReadAnd(shortScale); }
      else if i == 3 { ReadSix(shortScale); }
    }
    TokensOfReadings(ws, ts, shortScale);
  }

  lemma ExtractAllTwoPigsAndSixTrillionReadings1(ws: seq<string>, ts: seq<Token>, shortScale: bool)
    requires ws == ["trillion", "bacteria"]
    requires ts == [ScaleWord(ScaleValue(3, shortScale)), OtherWord]
    ensures Tokens(ws, shortScale) == ts
  {
    forall i | 0 <= i < 2
      ensures Classify(ws[i], shortScale) == ts[i]
    {
      if i == 0 { ReadTrillion(shortScale); }
      else if i == 1 { ReadBacteria(shortScale); }
    }
    TokensOfReadings(ws, ts, shortScale);
  }

  lemma ExtractAllTwoPigsAndSixTrillionWordChunks()
    ensures ["two", "pigs", "and", "six", "trillion", "bacteria"] == ["two", "pigs", "and", "six"] + ["trillion", "bacteria"]
  {
  }

  lemma ExtractAllTwoPigsAndSixTrillionTokenChunks(shortScale: bool)
    ensures [UnitWord(2), OtherWord, AndWord, UnitWord(6), ScaleWord(ScaleValue(3, shortScale)), OtherWord] == [UnitWord(2), OtherWord, AndWord, UnitWord(6)] + [ScaleWord(ScaleValue(3, shortScale)), OtherWord]
  {
  }

  lemma ExtractAllTwoPigsAndSixTrillionReadings(shortScale: bool)
    ensures Tokens(["two", "pigs", "and", "six", "trillion", "bacteria"], shortScale) == [UnitWord(2), OtherWord, AndWord, UnitWord(6), ScaleWord(ScaleValue(3, shortScale)), OtherWord]
  {
    var w0, w1 := ["two", "pigs", "and", "six"], ["trillion", "bacteria"];
    var t0, t1 := [UnitWord(2), OtherWord, AndWord, UnitWord(6)], [ScaleWord(ScaleValue(3, shortScale)), OtherWord];
    ExtractAllTwoPigsAndSixTrillionReadings0(w0, t0, shortScale);
    ExtractAllTwoPigsAndSixTrillionReadings1(w1, t1, shortScale);
    TokensJoin(w0, w1, t0, t1, shortScale);
    ExtractAllTwoPigsAndSixTrillionWordChunks();
    ExtractAllTwoPigsAndSixTrillionTokenChunks(shortScale);
  }

  lemma ExtractAllTwoPigsAndSixTrillionScan0(ts: seq<Token>)
    requires ts == [UnitWord(2), OtherWord, AndWord, UnitWord(6), ScaleWord(1000000000000), OtherWord]
    ensures Scan(ts, None, false) == [2, 6000000000000]
  {
    ExtractAllTwoPigsAndSixTrillionScan1(ts[1..]);
  }

  lemma ExtractAllTwoPigsAndSixTrillionScan1(ts: seq<Token>)
    requires ts == [OtherWord, AndWord, UnitWord(6), ScaleWord(1000000000000), OtherWord]
    ensures Scan(ts, Some(Run(0, 2, UnitWord(2), false)), false) == [2, 6000000000000]
  {
    ExtractAllTwoPigsAndSixTrillionScan2(ts[1..]);
  }

  lemma ExtractAllTwoPigsAndSixTrillionScan2(ts: seq<Token>)
    requires ts == [AndWord, UnitWord(6), ScaleWord(1000000000000), OtherWord]
    ensures Scan(ts, None, false) == [6000000000000]
  {
    ExtractAllTwoPigsAndSixTrillionScan3(ts[1..]);
  }

  lemma ExtractAllTwoPigsAndSixTrillionScan3(ts: seq<Token>)
    requires ts == [UnitWord(6), ScaleWord(1000000000000), OtherWord]
    ensures Scan(ts, None, false) == [6000000000000]
  {
    ExtractAllTwoPigsAndSixTrillionScan4(ts[1..]);
  }

  lemma ExtractAllTwoPigsAndSixTrillionScan4(ts: seq<Token>)
    requires ts == [ScaleWord(1000000000000), OtherWord]
    ensures Scan(ts, Some(Run(0, 6, UnitWord(6), false)), false) == [6000000000000]
  {
    ExtractAllTwoPigsAndSixTrillionScan5(ts[1..]);
  }

  lemma ExtractAllTwoPigsAndSixTrillionScan5(ts: seq<Token>)
    requires ts == [OtherWord]
    ensures Scan(ts, Some(Run(6000000000000, 0, ScaleWord(1000000000000), false)), false) == [6000000000000]
  {
  }

  /** test/test_parse.py:929-930 */
  lemma ExtractAllTwoPigsAndSixTrillion()
    ensures ExtractNumbers("two pigs and six trillion bacteria", true) == [2, 6000000000000]
  {
    ExtractAllTwoPigsAndSixTrillionWordsUpto6("two pigs and six trillion bacteria");
    ExtractAllTwoPigsAndSixTrillionReadings(true);
    ScaleValuesTrillion();
    ExtractAllTwoPigsAndSixTrillionScan0([UnitWord(2), OtherWord, AndWord, UnitWord(6), ScaleWord(1000000000000), OtherWord]);
  }

  lemma ExtractAllTwoPigsAndSixTrillionLongScaleScan0(ts: seq<Token>)
    requires ts == [UnitWord(2), OtherWord, AndWord, UnitWord(6), ScaleWord(1000000000000000000), OtherWord]
    ensures Scan(ts, None, false) == [2, 6000000000000000000]
  {
    ExtractAllTwoPigsAndSixTrillionLongScaleScan1(ts[1..]);
  }

  lemma ExtractAllTwoPigsAndSixTrillionLongScaleScan1(ts: seq<Token>)
    requires ts == [OtherWord, AndWord, UnitWord(6), ScaleWord(1000000000000000000), OtherWord]
    ensures Scan(ts, Some(Run(0, 2, UnitWord(2), false)), false) == [2, 6000000000000000000]
  {
    ExtractAllTwoPigsAndSixTrillionLongScaleScan2(ts[1..]);
  }

  lemma ExtractAllTwoPigsAndSixTrillionLongScaleScan2(ts: seq<Token>)
    requires ts == [AndWord, UnitWord(6), ScaleWord(1000000000000000000), OtherWord]
    ensures Scan(ts, None, false) == [6000000000000000000]
  {
    ExtractAllTwoPigsAndSixTrillionLongScaleScan3(ts[1..]);
  }

  lemma ExtractAllTwoPigsAndSixTrillionLongScaleScan3(ts: seq<Token>)
    requires ts == [UnitWord(6), ScaleWord(1000000000000000000), OtherWord]
    ensures Scan(ts, None, false) == [6000000000000000000]
  {
    ExtractAllTwoPigsAndSixTrillionLongScaleScan4(ts[1..]);
  }

  lemma ExtractAllTwoPigsAndSixTrillionLongScaleScan4(ts: seq<Token>)
    requires ts == [ScaleWord(1000000000000000000), OtherWord]
    ensures Scan(ts, Some(Run(0, 6, UnitWord(6), false)), false) == [6000000000000000000]
  {
    ExtractAllTwoPigsAndSixTrillionLongScaleScan5(ts[1..]);
  }

  lemma ExtractAllTwoPigsAndSixTrillionLongScaleScan5(ts: seq<Token>)
    requires ts == [OtherWord]
    ensures Scan(ts, Some(Run(6000000000000000000, 0, ScaleWord(1000000000000000000), false)), false) == [6000000000000000000]
  {
  }

  /** test/test_parse.py:931-932 */
  lemma ExtractAllTwoPigsAndSixTrillionLongScale()
    ensures ExtractNumbers("two pigs and six trillion bacteria", false) == [2, 6000000000000000000]
  {
    ExtractAllTwoPigsAndSixTrillionWordsUpto6("two pigs and six trillion bacteria");
    ExtractAllTwoPigsAndSixTrillionReadings(false);
    ScaleValuesTrillion();
    ExtractAllTwoPigsAndSixTrillionLongScaleScan0([UnitWord(2), OtherWord, AndWord, UnitWord(6), ScaleWord(1000000000000000000), OtherWord]);
  }
}
