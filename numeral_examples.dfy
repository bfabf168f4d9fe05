/** The integer readings `pronounce_number` is held to, one lemma per
    asserted value: the word groups, and the text they are spoken as. */
module NumeralExamples {
  import opened Options
  import opened Text
  import opened EnglishWords
  import opened Numerals
  import opened NumeralLaws

  lemma Int0Words0()
    ensures Texts([Small(0)]) == ["zero"]
  {
    assert WordText(Small(0)) == "zero";
  }

  lemma Int0Text1()
    ensures Unwords(["zero"]) == "zero"
  {
  }

  /** Small integers (test/test_format.py:136): zero. */
  lemma Int0()
    ensures Reading(0, true, false) == [[Small(0)]]
    ensures PronounceNumber(0, true, false) == Spelled("zero")
  {
    Int0Words0();
    Int0Text1();
    assert Colloquial(0).None?;
    assert Cardinal(0, true) == [[Small(0)]];
    SpokenSingle([Small(0)]);
  }

  lemma Int1Group1_0()
    ensures ShortGroup(1, 0) == [[Small(1)]]
  {
    assert SubThousand(1) == [Small(1)];
  }

  lemma Int1Magnitude()
    ensures Magnitude(1, true) == [[Small(1)]]
  {
    Int1Group1_0();
    assert ShortGroups(1, 0) == [[Small(1)]];
  }

  lemma Int1Words2()
    ensures Texts([Small(1)]) == ["one"]
  {
    assert WordText(Small(1)) == "one";
  }

  lemma Int1Text3()
    ensures Unwords(["one"]) == "one"
  {
  }

  /** Small integers (test/test_format.py:137): one. */
  lemma Int1()
    ensures Reading(1, true, false) == [[Small(1)]]
    ensures PronounceNumber(1, true, false) == Spelled("one")
  {
    Int1Magnitude();
    Int1Words2();
    Int1Text3();
    assert Colloquial(1).None?;
    assert Cardinal(1, true) == [[Small(1)]];
    SpokenSingle([Small(1)]);
  }

  lemma Int10Group10_0()
    ensures ShortGroup(10, 0) == [[Small(10)]]
  {
    assert SubThousand(10) == [Small(10)];
  }

  lemma Int10Magnitude()
    ensures Magnitude(10, true) == [[Small(10)]]
  {
    Int10Group10_0();
    assert ShortGroups(10, 0) == [[Small(10)]];
  }

  lemma Int10Words2()
    ensures Texts([Small(10)]) == ["ten"]
  {
    assert WordText(Small(10)) == "ten";
  }

  lemma Int10Text3()
    ensures Unwords(["ten"]) == "ten"
  {
  }

  /** Small integers (test/test_format.py:138): ten. */
  lemma Int10()
    ensures Reading(10, true, false) == [[Small(10)]]
    ensures PronounceNumber(10, true, false) == Spelled("ten")
  {
    Int10Magnitude();
    Int10Words2();
    Int10Text3();
    assert Colloquial(10).None?;
    assert Cardinal(10, true) == [[Small(10)]];
    SpokenSingle([Small(10)]);
  }

  lemma Int15Group15_0()
    ensures ShortGroup(15, 0) == [[Small(15)]]
  {
    assert SubThousand(15) == [Small(15)];
  }

  lemma Int15Magnitude()
    ensures Magnitude(15, true) == [[Small(15)]]
  {
    Int15Group15_0();
    assert ShortGroups(15, 0) == [[Small(15)]];
  }

  lemma Int15Words2()
    ensures Texts([Small(15)]) == ["fifteen"]
  {
    assert WordText(Small(15)) == "fifteen";
  }

  lemma Int15Text3()
    ensures Unwords(["fifteen"]) == "fifteen"
  {
  }

  /** Small integers (test/test_format.py:139): fifteen. */
  lemma Int15()
    ensures Reading(15, true, false) == [[Small(15)]]
    ensures PronounceNumber(15, true, false) == Spelled("fifteen")
  {
    Int15Magnitude();
    Int15Words2();
    Int15Text3();
    assert Colloquial(15).None?;
    assert Cardinal(15, true) == [[Small(15)]];
    SpokenSingle([Small(15)]);
  }

  lemma Int20Group20_0()
    ensures ShortGroup(20, 0) == [[Tens(2)]]
  {
    assert SubThousand(20) == [Tens(2)];
  }

  lemma Int20Magnitude()
    ensures Magnitude(20, true) == [[Tens(2)]]
  {
    Int20Group20_0();
    assert ShortGroups(20, 0) == [[Tens(2)]];
  }

  lemma Int20Words2()
    ensures Texts([Tens(2)]) == ["twenty"]
  {
    assert WordText(Tens(2)) == "twenty";
  }

  lemma Int20Text3()
    ensures Unwords(["twenty"]) == "twenty"
  {
  }

  /** Small integers (test/test_format.py:140): twenty. */
  lemma Int20()
    ensures Reading(20, true, false) == [[Tens(2)]]
    ensures PronounceNumber(20, true, false) == Spelled("twenty")
  {
    Int20Magnitude();
    Int20Words2();
    Int20Text3();
    assert Colloquial(20).None?;
    assert Cardinal(20, true) == [[Tens(2)]];
    SpokenSingle([Tens(2)]);
  }

  lemma Int27Group27_0()
    ensures ShortGroup(27, 0) == [[Tens(2), Small(7)]]
  {
    assert SubThousand(27) == [Tens(2), Small(7)];
  }

  lemma Int27Magnitude()
    ensures Magnitude(27, true) == [[Tens(2), Small(7)]]
  {
    Int27Group27_0();
    assert ShortGroups(27, 0) == [[Tens(2), Small(7)]];
  }

  lemma Int27Words2()
    ensures Texts([Tens(2), Small(7)]) == ["twenty", "seven"]
  {
    assert WordText(Tens(2)) == "twenty";
    assert WordText(Small(7)) == "seven";
  }

  lemma Int27Text3()
    ensures Unwords(["twenty", "seven"]) == "twenty seven"
  {
  }

  /** Small integers (test/test_format.py:141): twenty seven. */
  lemma Int27()
    ensures Reading(27, true, false) == [[Tens(2), Small(7)]]
    ensures PronounceNumber(27, true, false) == Spelled("twenty seven")
  {
    Int27Magnitude();
    Int27Words2();
    Int27Text3();
    assert Colloquial(27).None?;
    assert Cardinal(27, true) == [[Tens(2), Small(7)]];
    SpokenSingle([Tens(2), Small(7)]);
  }

  lemma Int30Group30_0()
    ensures ShortGroup(30, 0) == [[Tens(3)]]
  {
    assert SubThousand(30) == [Tens(3)];
  }

  lemma Int30Magnitude()
    ensures Magnitude(30, true) == [[Tens(3)]]
  {
    Int30Group30_0();
    assert ShortGroups(30, 0) == [[Tens(3)]];
  }

  lemma Int30Words2()
    ensures Texts([Tens(3)]) == ["thirty"]
  {
    assert WordText(Tens(3)) == "thirty";
  }

  lemma Int30Text3()
    ensures Unwords(["thirty"]) == "thirty"
  {
  }

  /** Small integers (test/test_format.py:142): thirty. */
  lemma Int30()
    ensures Reading(30, true, false) == [[Tens(3)]]
    ensures PronounceNumber(30, true, false) == Spelled("thirty")
  {
    Int30Magnitude();
    Int30Words2();
    Int30Text3();
    assert Colloquial(30).None?;
    assert Cardinal(30, true) == [[Tens(3)]];
    SpokenSingle([Tens(3)]);
  }

  lemma Int33Group33_0()
    ensures ShortGroup(33, 0) == [[Tens(3), Small(3)]]
  {
    assert SubThousand(33) == [Tens(3), Small(3)];
  }

  lemma Int33Magnitude()
    ensures Magnitude(33, true) == [[Tens(3), Small(3)]]
  {
    Int33Group33_0();
    assert ShortGroups(33, 0) == [[Tens(3), Small(3)]];
  }

  lemma Int33Words2()
    ensures Texts([Tens(3), Small(3)]) == ["thirty", "three"]
  {
    assert WordText(Tens(3)) == "thirty";
    assert WordText(Small(3)) == "three";
  }

  lemma Int33Text3()
    ensures Unwords(["thirty", "three"]) == "thirty three"
  {
  }

  /** Small integers (test/test_format.py:143): thirty three. */
  lemma Int33()
    ensures Reading(33, true, false) == [[Tens(3), Small(3)]]
    ensures PronounceNumber(33, true, false) == Spelled("thirty three")
  {
    Int33Magnitude();
    Int33Words2();
    Int33Text3();
    assert Colloquial(33).None?;
    assert Cardinal(33, true) == [[Tens(3), Small(3)]];
    SpokenSingle([Tens(3), Small(3)]);
  }

  lemma Negative1Signed()
    ensures Signed([[Small(1)]]) == [[Minus, Small(1)]]
  {
    assert [Minus] + [Small(1)] == [Minus, Small(1)];
    assert Signed([[Small(1)]])[0] == [Minus, Small(1)];
  }

  lemma Negative1Words1()
    ensures Texts([Minus, Small(1)]) == ["minus", "one"]
  {
    assert WordText(Minus) == "minus";
    assert WordText(Small(1)) == "one";
  }

  lemma Negative1Text2()
    ensures Unwords(["minus", "one"]) == "minus one"
  {
  }

  /** Negative integers (test/test_format.py:146): minus one. */
  lemma Negative1()
    ensures Reading(-1, true, false) == [[Minus, Small(1)]]
    ensures PronounceNumber(-1, true, false) == Spelled("minus one")
  {
    Int1Magnitude();
    Negative1Signed();
    Negative1Words1();
    Negative1Text2();
    assert Colloquial(-1).None?;
    assert Cardinal(-1, true) == [[Minus, Small(1)]];
    SpokenSingle([Minus, Small(1)]);
  }

  lemma Negative10Signed()
    ensures Signed([[Small(10)]]) == [[Minus, Small(10)]]
  {
    assert [Minus] + [Small(10)] == [Minus, Small(10)];
    assert Signed([[Small(10)]])[0] == [Minus, Small(10)];
  }

  lemma Negative10Words1()
    ensures Texts([Minus, Small(10)]) == ["minus", "ten"]
  {
    assert WordText(Minus) == "minus";
    assert WordText(Small(10)) == "ten";
  }

  lemma Negative10Text2()
    ensures Unwords(["minus", "ten"]) == "minus ten"
  {
  }

  /** Negative integers (test/test_format.py:147): minus ten. */
  lemma Negative10()
    ensures Reading(-10, true, false) == [[Minus, Small(10)]]
    ensures PronounceNumber(-10, true, false) == Spelled("minus ten")
  {
    Int10Magnitude();
    Negative10Signed();
    Negative10Words1();
    Negative10Text2();
    assert Colloquial(-10).None?;
    assert Cardinal(-10, true) == [[Minus, Small(10)]];
    SpokenSingle([Minus, Small(10)]);
  }

  lemma Negative15Signed()
    ensures Signed([[Small(15)]]) == [[Minus, Small(15)]]
  {
    assert [Minus] + [Small(15)] == [Minus, Small(15)];
    assert Signed([[Small(15)]])[0] == [Minus, Small(15)];
  }

  lemma Negative15Words1()
    ensures Texts([Minus, Small(15)]) == ["minus", "fifteen"]
  {
    assert WordText(Minus) == "minus";
    assert WordText(Small(15)) == "fifteen";
  }

  lemma Negative15Text2()
    ensures Unwords(["minus", "fifteen"]) == "minus fifteen"
  {
  }

  /** Negative integers (test/test_format.py:148): minus fifteen. */
  lemma Negative15()
    ensures Reading(-15, true, false) == [[Minus, Small(15)]]
    ensures PronounceNumber(-15, true, false) == Spelled("minus fifteen")
  {
    Int15Magnitude();
    Negative15Signed();
    Negative15Words1();
    Negative15Text2();
    assert Colloquial(-15).None?;
    assert Cardinal(-15, true) == [[Minus, Small(15)]];
    SpokenSingle([Minus, Small(15)]);
  }

  lemma Negative20Signed()
    ensures Signed([[Tens(2)]]) == [[Minus, Tens(2)]]
  {
    assert [Minus] + [Tens(2)] == [Minus, Tens(2)];
    assert Signed([[Tens(2)]])[0] == [Minus, Tens(2)];
  }

  lemma Negative20Words1()
    ensures Texts([Minus, Tens(2)]) == ["minus", "twenty"]
  {
    assert WordText(Minus) == "minus";
    assert WordText(Tens(2)) == "twenty";
  }

  lemma Negative20Text2()
    ensures Unwords(["minus", "twenty"]) == "minus twenty"
  {
  }

  /** Negative integers (test/test_format.py:149): minus twenty. */
  lemma Negative20()
    ensures Reading(-20, true, false) == [[Minus, Tens(2)]]
    ensures PronounceNumber(-20, true, false) == Spelled("minus twenty")
  {
    Int20Magnitude();
    Negative20Signed();
    Negative20Words1();
    Negative20Text2();
    assert Colloquial(-20).None?;
    assert Cardinal(-20, true) == [[Minus, Tens(2)]];
    SpokenSingle([Minus, Tens(2)]);
  }

  lemma Negative27Signed()
    ensures Signed([[Tens(2), Small(7)]]) == [[Minus, Tens(2), Small(7)]]
  {
    assert [Minus] + [Tens(2), Small(7)] == [Minus, Tens(2), Small(7)];
    assert Signed([[Tens(2), Small(7)]])[0] == [Minus, Tens(2), Small(7)];
  }

  lemma Negative27Words1()
    ensures Texts([Minus, Tens(2), Small(7)]) == ["minus", "twenty", "seven"]
  {
    assert WordText(Minus) == "minus";
    assert WordText(Tens(2)) == "twenty";
    assert WordText(Small(7)) == "seven";
  }

  lemma Negative27Text2()
    ensures Unwords(["minus", "twenty", "seven"]) == "minus twenty seven"
  {
  }

  /** Negative integers (test/test_format.py:150): minus twenty seven. */
  lemma Negative27()
    ensures Reading(-27, true, false) == [[Minus, Tens(2), Small(7)]]
    ensures PronounceNumber(-27, true, false) == Spelled("minus twenty seven")
  {
    Int27Magnitude();
    Negative27Signed();
    Negative27Words1();
    Negative27Text2();
    assert Colloquial(-27).None?;
    assert Cardinal(-27, true) == [[Minus, Tens(2), Small(7)]];
    SpokenSingle([Minus, Tens(2), Small(7)]);
  }

  lemma Negative30Signed()
    ensures Signed([[Tens(3)]]) == [[Minus, Tens(3)]]
  {
    assert [Minus] + [Tens(3)] == [Minus, Tens(3)];
    assert Signed([[Tens(3)]])[0] == [Minus, Tens(3)];
  }

  lemma Negative30Words1()
    ensures Texts([Minus, Tens(3)]) == ["minus", "thirty"]
  {
    assert WordText(Minus) == "minus";
    assert WordText(Tens(3)) == "thirty";
  }

  lemma Negative30Text2()
    ensures Unwords(["minus", "thirty"]) == "minus thirty"
  {
  }

  /** Negative integers (test/test_format.py:151): minus thirty. */
  lemma Negative30()
    ensures Reading(-30, true, false) == [[Minus, Tens(3)]]
    ensures PronounceNumber(-30, true, false) == Spelled("minus thirty")
  {
    Int30Magnitude();
    Negative30Signed();
    Negative30Words1();
    Negative30Text2();
    assert Colloquial(-30).None?;
    assert Cardinal(-30, true) == [[Minus, Tens(3)]];
    SpokenSingle([Minus, Tens(3)]);
  }

  lemma Negative33Signed()
    ensures Signed([[Tens(3), Small(3)]]) == [[Minus, Tens(3), Small(3)]]
  {
    assert [Minus] + [Tens(3), Small(3)] == [Minus, Tens(3), Small(3)];
    assert Signed([[Tens(3), Small(3)]])[0] == [Minus, Tens(3), Small(3)];
  }

  lemma Negative33Words1()
    ensures Texts([Minus, Tens(3), Small(3)]) == ["minus", "thirty", "three"]
  {
    assert WordText(Minus) == "minus";
    assert WordText(Tens(3)) == "thirty";
    assert WordText(Small(3)) == "three";
  }

  lemma Negative33Text2()
    ensures Unwords(["minus", "thirty", "three"]) == "minus thirty three"
  {
  }

  /** Negative integers (test/test_format.py:152): minus thirty three. */
  lemma Negative33()
    ensures Reading(-33, true, false) == [[Minus, Tens(3), Small(3)]]
    ensures PronounceNumber(-33, true, false) == Spelled("minus thirty three")
  {
    Int33Magnitude();
    Negative33Signed();
    Negative33Words1();
    Negative33Text2();
    assert Colloquial(-33).None?;
    assert Cardinal(-33, true) == [[Minus, Tens(3), Small(3)]];
    SpokenSingle([Minus, Tens(3), Small(3)]);
  }

  lemma Decimal0_05Digits()
    ensures DigitNames([0, 5]) == [Small(0), Small(5)]
  {
  }

  lemma Decimal0_05Groups()
    ensures DecimalReading(Decimal(false, 0, [0, 5]), 2, true) == [[Small(0), Point, Small(0), Small(5)]]
  {
    Decimal0_05Digits();
    assert Shown(Decimal(false, 0, [0, 5]), 2) == [0, 5];
    assert [Small(0)] + [Point, Small(0), Small(5)] == [Small(0), Point, Small(0), Small(5)];
    assert |DecimalReading(Decimal(false, 0, [0, 5]), 2, true)| == 1;
    assert DecimalReading(Decimal(false, 0, [0, 5]), 2, true)[0] == [Small(0), Point, Small(0), Small(5)];
  }

  lemma Decimal0_05Words2()
    ensures Texts([Small(0), Point, Small(0), Small(5)]) == ["zero", "point", "zero", "five"]
  {
    assert WordText(Small(0)) == "zero";
    assert WordText(Point) == "point";
    assert WordText(Small(0)) == "zero";
    assert WordText(Small(5)) == "five";
  }

  lemma Decimal0_05Text3_2()
    ensures Unwords(["zero", "point"]) == "zero point"
  {
    JoinWithAppend(" ", ["zero"], "point");
    assert ["zero"] + ["point"] == ["zero", "point"];
    assert "zero" + " " + "point" == "zero point";
  }

  lemma Decimal0_05Text4_3()
    ensures Unwords(["zero", "point", "zero"]) == "zero point zero"
  {
    Decimal0_05Text3_2();
    JoinWithAppend(" ", ["zero", "point"], "zero");
    assert ["zero", "point"] + ["zero"] == ["zero", "point", "zero"];
    assert "zero point" + " " + "zero" == "zero point zero";
  }

  lemma Decimal0_05Text5_4()
    ensures Unwords(["zero", "point", "zero", "five"]) == "zero point zero five"
  {
    Decimal0_05Text4_3();
    JoinWithAppend(" ", ["zero", "point", "zero"], "five");
    assert ["zero", "point", "zero"] + ["five"] == ["zero", "point", "zero", "five"];
    assert "zero point zero" + " " + "five" == "zero point zero five";
  }

  /** Decimals (test/test_format.py:155): zero point zero five. */
  lemma Decimal0_05()
    ensures DecimalReading(Decimal(false, 0, [0, 5]), 2, true) == [[Small(0), Point, Small(0), Small(5)]]
    ensures PronounceDecimal(Decimal(false, 0, [0, 5]), 2, true) == Spelled("zero point zero five")
  {
    Decimal0_05Groups();
    Decimal0_05Words2();
    Decimal0_05Text5_4();
    SpokenSingle([Small(0), Point, Small(0), Small(5)]);
  }

  lemma DecimalMinus0_05Signed()
    ensures Signed([[Small(0)]]) == [[Minus, Small(0)]]
  {
    assert [Minus] + [Small(0)] == [Minus, Small(0)];
    assert Signed([[Small(0)]])[0] == [Minus, Small(0)];
  }

  lemma DecimalMinus0_05Groups()
    ensures DecimalReading(Decimal(true, 0, [0, 5]), 2, true) == [[Minus, Small(0), Point, Small(0), Small(5)]]
  {
    DecimalMinus0_05Signed();
    Decimal0_05Digits();
    assert Shown(Decimal(true, 0, [0, 5]), 2) == [0, 5];
    assert [Minus, Small(0)] + [Point, Small(0), Small(5)] == [Minus, Small(0), Point, Small(0), Small(5)];
    assert |DecimalReading(Decimal(true, 0, [0, 5]), 2, true)| == 1;
    assert DecimalReading(Decimal(true, 0, [0, 5]), 2, true)[0] == [Minus, Small(0), Point, Small(0), Small(5)];
  }

  lemma DecimalMinus0_05Words2()
    ensures Texts([Minus, Small(0)]) == ["minus", "zero"]
  {
    assert WordText(Minus) == "minus";
    assert WordText(Small(0)) == "zero";
  }

  lemma DecimalMinus0_05Words3()
    ensures Texts([Point, Small(0), Small(5)]) == ["point", "zero", "five"]
  {
    assert WordText(Point) == "point";
    assert WordText(Small(0)) == "zero";
    assert WordText(Small(5)) == "five";
  }

  lemma DecimalMinus0_05Words4()
    ensures Texts([Minus, Small(0), Point, Small(0), Small(5)]) == ["minus", "zero", "point", "zero", "five"]
  {
    DecimalMinus0_05Words2();
    DecimalMinus0_05Words3();
    TextsConcat([Minus, Small(0)], [Point, Small(0), Small(5)]);
    assert [Minus, Small(0)] + [Point, Small(0), Small(5)] == [Minus, Small(0), Point, Small(0), Small(5)];
    assert ["minus", "zero"] + ["point", "zero", "five"] == ["minus", "zero", "point", "zero", "five"];
  }

  lemma DecimalMinus0_05Text5_2()
    ensures Unwords(["minus", "zero"]) == "minus zero"
  {
    JoinWithAppend(" ", ["minus"], "zero");
    assert ["minus"] + ["zero"] == ["minus", "zero"];
    assert "minus" + " " + "zero" == "minus zero";
  }

  lemma DecimalMinus0_05Text6_3()
    ensures Unwords(["minus", "zero", "point"]) == "minus zero point"
  {
    DecimalMinus0_05Text5_2();
    JoinWithAppend(" ", ["minus", "zero"], "point");
    assert ["minus", "zero"] + ["point"] == ["minus", "zero", "point"];
    assert "minus zero" + " " + "point" == "minus zero point";
  }

  lemma DecimalMinus0_05Text7_4()
    ensures Unwords(["minus", "zero", "point", "zero"]) == "minus zero point zero"
  {
    DecimalMinus0_05Text6_3();
    JoinWithAppend(" ", ["minus", "zero", "point"], "zero");
    assert ["minus", "zero", "point"] + ["zero"] == ["minus", "zero", "point", "zero"];
    assert "minus zero point" + " " + "zero" == "minus zero point zero";
  }

  lemma DecimalMinus0_05Text8_5()
    ensures Unwords(["minus", "zero", "point", "zero", "five"]) == "minus zero point zero five"
  {
    DecimalMinus0_05Text7_4();
    JoinWithAppend(" ", ["minus", "zero", "point", "zero"], "five");
    assert ["minus", "zero", "point", "zero"] + ["five"] == ["minus", "zero", "point", "zero", "five"];
    assert "minus zero point zero" + " " + "five" == "minus zero point zero five";
  }

  /** Decimals (test/test_format.py:156): minus zero point zero five. */
  lemma DecimalMinus0_05()
    ensures DecimalReading(Decimal(true, 0, [0, 5]), 2, true) == [[Minus, Small(0), Point, Small(0), Small(5)]]
    ensures PronounceDecimal(Decimal(true, 0, [0, 5]), 2, true) == Spelled("minus zero point zero five")
  {
    DecimalMinus0_05Groups();
    DecimalMinus0_05Words4();
    DecimalMinus0_05Text8_5();
    SpokenSingle([Minus, Small(0), Point, Small(0), Small(5)]);
  }

  lemma Decimal1_234Digits()
    ensures DigitNames([2, 3]) == [Small(2), Small(3)]
  {
  }

  lemma Decimal1_234Groups()
    ensures DecimalReading(Decimal(false, 1, [2, 3, 4]), 2, true) == [[Small(1), Point, Small(2), Small(3)]]
  {
    Int1Magnitude();
    Decimal1_234Digits();
    assert Cardinal(1, true) == [[Small(1)]];
    assert Shown(Decimal(false, 1, [2, 3, 4]), 2) == [2, 3];
    assert [Small(1)] + [Point, Small(2), Small(3)] == [Small(1), Point, Small(2), Small(3)];
    assert |DecimalReading(Decimal(false, 1, [2, 3, 4]), 2, true)| == 1;
    assert DecimalReading(Decimal(false, 1, [2, 3, 4]), 2, true)[0] == [Small(1), Point, Small(2), Small(3)];
  }

  lemma Decimal1_234Words2()
    ensures Texts([Small(1), Point, Small(2), Small(3)]) == ["one", "point", "two", "three"]
  {
    assert WordText(Small(1)) == "one";
    assert WordText(Point) == "point";
    assert WordText(Small(2)) == "two";
    assert WordText(Small(3)) == "three";
  }

  lemma Decimal1_234Text3_2()
    ensures Unwords(["one", "point"]) == "one point"
  {
    JoinWithAppend(" ", ["one"], "point");
    assert ["one"] + ["point"] == ["one", "point"];
    assert "one" + " " + "point" == "one point";
  }

  lemma Decimal1_234Text4_3()
    ensures Unwords(["one", "point", "two"]) == "one point two"
  {
    Decimal1_234Text3_2();
    JoinWithAppend(" ", ["one", "point"], "two");
    assert ["one", "point"] + ["two"] == ["one", "point", "two"];
    assert "one point" + " " + "two" == "one point two";
  }

  lemma Decimal1_234Text5_4()
    ensures Unwords(["one", "point", "two", "three"]) == "one point two three"
  {
    Decimal1_234Text4_3();
    JoinWithAppend(" ", ["one", "point", "two"], "three");
    assert ["one", "point", "two"] + ["three"] == ["one", "point", "two", "three"];
    assert "one point two" + " " + "three" == "one point two three";
  }

  /** Decimals (test/test_format.py:157): one point two three. */
  lemma Decimal1_234()
    ensures DecimalReading(Decimal(false, 1, [2, 3, 4]), 2, true) == [[Small(1), Point, Small(2), Small(3)]]
    ensures PronounceDecimal(Decimal(false, 1, [2, 3, 4]), 2, true) == Spelled("one point two three")
  {
    Decimal1_234Groups();
    Decimal1_234Words2();
    Decimal1_234Text5_4();
    SpokenSingle([Small(1), Point, Small(2), Small(3)]);
  }

  lemma Decimal21_234Group21_0()
    ensures ShortGroup(21, 0) == [[Tens(2), Small(1)]]
  {
    assert SubThousand(21) == [Tens(2), Small(1)];
  }

  lemma Decimal21_234Magnitude()
    ensures Magnitude(21, true) == [[Tens(2), Small(1)]]
  {
    Decimal21_234Group21_0();
    assert ShortGroups(21, 0) == [[Tens(2), Small(1)]];
  }

  lemma Decimal21_234Groups()
    ensures DecimalReading(Decimal(false, 21, [2, 3, 4]), 2, true) == [[Tens(2), Small(1), Point, Small(2), Small(3)]]
  {
    Decimal21_234Magnitude();
    Decimal1_234Digits();
    assert Cardinal(21, true) == [[Tens(2), Small(1)]];
    assert Shown(Decimal(false, 21, [2, 3, 4]), 2) == [2, 3];
    assert [Tens(2), Small(1)] + [Point, Small(2), Small(3)] == [Tens(2), Small(1), Point, Small(2), Small(3)];
    assert |DecimalReading(Decimal(false, 21, [2, 3, 4]), 2, true)| == 1;
    assert DecimalReading(Decimal(false, 21, [2, 3, 4]), 2, true)[0] == [Tens(2), Small(1), Point, Small(2), Small(3)];
  }

  lemma Decimal21_234Words3()
    ensures Texts([Tens(2), Small(1)]) == ["twenty", "one"]
  {
    assert WordText(Tens(2)) == "twenty";
    assert WordText(Small(1)) == "one";
  }

  lemma Decimal21_234Words4()
    ensures Texts([Point, Small(2), Small(3)]) == ["point", "two", "three"]
  {
    assert WordText(Point) == "point";
    assert WordText(Small(2)) == "two";
    assert WordText(Small(3)) == "three";
  }

  lemma Decimal21_234Words5()
    ensures Texts([Tens(2), Small(1), Point, Small(2), Small(3)]) == ["twenty", "one", "point", "two", "three"]
  {
    Decimal21_234Words3();
    Decimal21_234Words4();
    TextsConcat([Tens(2), Small(1)], [Point, Small(2), Small(3)]);
    assert [Tens(2), Small(1)] + [Point, Small(2), Small(3)] == [Tens(2), Small(1), Point, Small(2), Small(3)];
    assert ["twenty", "one"] + ["point", "two", "three"] == ["twenty", "one", "point", "two", "three"];
  }

  lemma Decimal21_234Text6_2()
    ensures Unwords(["twenty", "one"]) == "twenty one"
  {
    JoinWithAppend(" ", ["twenty"], "one");
    assert ["twenty"] + ["one"] == ["twenty", "one"];
    assert "twenty" + " " + "one" == "twenty one";
  }

  lemma Decimal21_234Text7_3()
    ensures Unwords(["twenty", "one", "point"]) == "twenty one point"
  {
    Decimal21_234Text6_2();
    JoinWithAppend(" ", ["twenty", "one"], "point");
    assert ["twenty", "one"] + ["point"] == ["twenty", "one", "point"];
    assert "twenty one" + " " + "point" == "twenty one point";
  }

  lemma Decimal21_234Text8_4()
    ensures Unwords(["twenty", "one", "point", "two"]) == "twenty one point two"
  {
    Decimal21_234Text7_3();
    JoinWithAppend(" ", ["twenty", "one", "point"], "two");
    assert ["twenty", "one", "point"] + ["two"] == ["twenty", "one", "point", "two"];
    assert "twenty one point" + " " + "two" == "twenty one point two";
  }

  lemma Decimal21_234Text9_5()
    ensures Unwords(["twenty", "one", "point", "two", "three"]) == "twenty one point two three"
  {
    Decimal21_234Text8_4();
    JoinWithAppend(" ", ["twenty", "one", "point", "two"], "three");
    assert ["twenty", "one", "point", "two"] + ["three"] == ["twenty", "one", "point", "two", "three"];
    assert "twenty one point two" + " " + "three" == "twenty one point two three";
  }

  /** Decimals (test/test_format.py:159): twenty one point two three. */
  lemma Decimal21_234()
    ensures DecimalReading(Decimal(false, 21, [2, 3, 4]), 2, true) == [[Tens(2), Small(1), Point, Small(2), Small(3)]]
    ensures PronounceDecimal(Decimal(false, 21, [2, 3, 4]), 2, true) == Spelled("twenty one point two three")
  {
    Decimal21_234Groups();
    Decimal21_234Words5();
    Decimal21_234Text9_5();
    SpokenSingle([Tens(2), Small(1), Point, Small(2), Small(3)]);
  }

  lemma Decimal21_234Places1Digits()
    ensures DigitNames([2]) == [Small(2)]
  {
  }

  lemma Decimal21_234Places1Groups()
    ensures DecimalReading(Decimal(false, 21, [2, 3, 4]), 1, true) == [[Tens(2), Small(1), Point, Small(2)]]
  {
    Decimal21_234Magnitude();
    Decimal21_234Places1Digits();
    assert Cardinal(21, true) == [[Tens(2), Small(1)]];
    assert Shown(Decimal(false, 21, [2, 3, 4]), 1) == [2];
    assert [Tens(2), Small(1)] + [Point, Small(2)] == [Tens(2), Small(1), Point, Small(2)];
    assert |DecimalReading(Decimal(false, 21, [2, 3, 4]), 1, true)| == 1;
    assert DecimalReading(Decimal(false, 21, [2, 3, 4]), 1, true)[0] == [Tens(2), Small(1), Point, Small(2)];
  }

  lemma Decimal21_234Places1Words2()
    ensures Texts([Tens(2), Small(1), Point, Small(2)]) == ["twenty", "one", "point", "two"]
  {
    assert WordText(Tens(2)) == "twenty";
    assert WordText(Small(1)) == "one";
    assert WordText(Point) == "point";
    assert WordText(Small(2)) == "two";
  }

  /** Decimals (test/test_format.py:161): twenty one point two. */
  lemma Decimal21_234Places1()
    ensures DecimalReading(Decimal(false, 21, [2, 3, 4]), 1, true) == [[Tens(2), Small(1), Point, Small(2)]]
    ensures PronounceDecimal(Decimal(false, 21, [2, 3, 4]), 1, true) == Spelled("twenty one point two")
  {
    Decimal21_234Places1Groups();
    Decimal21_234Places1Words2();
    Decimal21_234Text8_4();
    SpokenSingle([Tens(2), Small(1), Point, Small(2)]);
  }

  lemma Decimal21_234Places0Groups()
    ensures DecimalReading(Decimal(false, 21, [2, 3, 4]), 0, true) == [[Tens(2), Small(1)]]
  {
    Decimal21_234Magnitude();
    assert Cardinal(21, true) == [[Tens(2), Small(1)]];
    assert Shown(Decimal(false, 21, [2, 3, 4]), 0) == [];
    assert |DecimalReading(Decimal(false, 21, [2, 3, 4]), 0, true)| == 1;
    assert DecimalReading(Decimal(false, 21, [2, 3, 4]), 0, true)[0] == [Tens(2), Small(1)];
  }

  /** Decimals (test/test_format.py:163): twenty one. */
  lemma Decimal21_234Places0()
    ensures DecimalReading(Decimal(false, 21, [2, 3, 4]), 0, true) == [[Tens(2), Small(1)]]
    ensures PronounceDecimal(Decimal(false, 21, [2, 3, 4]), 0, true) == Spelled("twenty one")
  {
    Decimal21_234Places0Groups();
    Decimal21_234Words3();
    Decimal21_234Text6_2();
    SpokenSingle([Tens(2), Small(1)]);
  }

  lemma Decimal21_234Places3Digits()
    ensures DigitNames([2, 3, 4]) == [Small(2), Small(3), Small(4)]
  {
  }

  lemma Decimal21_234Places3Groups()
    ensures DecimalReading(Decimal(false, 21, [2, 3, 4]), 3, true) == [[Tens(2), Small(1), Point, Small(2), Small(3), Small(4)]]
  {
    Decimal21_234Magnitude();
    Decimal21_234Places3Digits();
    assert Cardinal(21, true) == [[Tens(2), Small(1)]];
    assert Shown(Decimal(false, 21, [2, 3, 4]), 3) == [2, 3, 4];
    assert [Tens(2), Small(1)] + [Point, Small(2), Small(3), Small(4)] == [Tens(2), Small(1), Point, Small(2), Small(3), Small(4)];
    assert |DecimalReading(Decimal(false, 21, [2, 3, 4]), 3, true)| == 1;
    assert DecimalReading(Decimal(false, 21, [2, 3, 4]), 3, true)[0] == [Tens(2), Small(1), Point, Small(2), Small(3), Small(4)];
  }

  lemma Decimal21_234Places3Words2()
    ensures Texts([Tens(2), Small(1), Point]) == ["twenty", "one", "point"]
  {
    assert WordText(Tens(2)) == "twenty";
    assert WordText(Small(1)) == "one";
    assert WordText(Point) == "point";
  }

  lemma Decimal21_234Places3Words3()
    ensures Texts([Small(2), Small(3), Small(4)]) == ["two", "three", "four"]
  {
    assert WordText(Small(2)) == "two";
    assert WordText(Small(3)) == "three";
    assert WordText(Small(4)) == "four";
  }

  lemma Decimal21_234Places3Words4()
    ensures Texts([Tens(2), Small(1), Point, Small(2), Small(3), Small(4)]) == ["twenty", "one", "point", "two", "three", "four"]
  {
    Decimal21_234Places3Words2();
    Decimal21_234Places3Words3();
    TextsConcat([Tens(2), Small(1), Point], [Small(2), Small(3), Small(4)]);
    assert [Tens(2), Small(1), Point] + [Small(2), Small(3), Small(4)] == [Tens(2), Small(1), Point, Small(2), Small(3), Small(4)];
    assert ["twenty", "one", "point"] + ["two", "three", "four"] == ["twenty", "one", "point", "two", "three", "four"];
  }

  lemma Decimal21_234Places3Text5_6()
    ensures Unwords(["twenty", "one", "point", "two", "three", "four"]) == "twenty one point two three four"
  {
    Decimal21_234Text9_5();
    JoinWithAppend(" ", ["twenty", "one", "point", "two", "three"], "four");
    assert ["twenty", "one", "point", "two", "three"] + ["four"] == ["twenty", "one", "point", "two", "three", "four"];
    assert "twenty one point two three" + " " + "four" == "twenty one point two three four";
  }

  /** Decimals (test/test_format.py:165): twenty one point two three four. */
  lemma Decimal21_234Places3()
    ensures DecimalReading(Decimal(false, 21, [2, 3, 4]), 3, true) == [[Tens(2), Small(1), Point, Small(2), Small(3), Small(4)]]
    ensures PronounceDecimal(Decimal(false, 21, [2, 3, 4]), 3, true) == Spelled("twenty one point two three four")
  {
    Decimal21_234Places3Groups();
    Decimal21_234Places3Words4();
    Decimal21_234Places3Text5_6();
    SpokenSingle([Tens(2), Small(1), Point, Small(2), Small(3), Small(4)]);
  }

  lemma Decimal21_234Places4Groups()
    ensures DecimalReading(Decimal(false, 21, [2, 3, 4]), 4, true) == [[Tens(2), Small(1), Point, Small(2), Small(3), Small(4)]]
  {
    Decimal21_234Magnitude();
    Decimal21_234Places3Digits();
    assert Cardinal(21, true) == [[Tens(2), Small(1)]];
    assert Shown(Decimal(false, 21, [2, 3, 4]), 4) == [2, 3, 4];
    assert [Tens(2), Small(1)] + [Point, Small(2), Small(3), Small(4)] == [Tens(2), Small(1), Point, Small(2), Small(3), Small(4)];
    assert |DecimalReading(Decimal(false, 21, [2, 3, 4]), 4, true)| == 1;
    assert DecimalReading(Decimal(false, 21, [2, 3, 4]), 4, true)[0] == [Tens(2), Small(1), Point, Small(2), Small(3), Small(4)];
  }

  /** Decimals (test/test_format.py:167): twenty one point two three four. */
  lemma Decimal21_234Places4()
    ensures DecimalReading(Decimal(false, 21, [2, 3, 4]), 4, true) == [[Tens(2), Small(1), Point, Small(2), Small(3), Small(4)]]
    ensures PronounceDecimal(Decimal(false, 21, [2, 3, 4]), 4, true) == Spelled("twenty one point two three four")
  {
    Decimal21_234Places4Groups();
    Decimal21_234Places3Words4();
    Decimal21_234Places3Text5_6();
    SpokenSingle([Tens(2), Small(1), Point, Small(2), Small(3), Small(4)]);
  }

  lemma Decimal21_234Places5Groups()
    ensures DecimalReading(Decimal(false, 21, [2, 3, 4]), 5, true) == [[Tens(2), Small(1), Point, Small(2), Small(3), Small(4)]]
  {
    Decimal21_234Magnitude();
    Decimal21_234Places3Digits();
    assert Cardinal(21, true) == [[Tens(2), Small(1)]];
    assert Shown(Decimal(false, 21, [2, 3, 4]), 5) == [2, 3, 4];
    assert [Tens(2), Small(1)] + [Point, Small(2), Small(3), Small(4)] == [Tens(2), Small(1), Point, Small(2), Small(3), Small(4)];
    assert |DecimalReading(Decimal(false, 21, [2, 3, 4]), 5, true)| == 1;
    assert DecimalReading(Decimal(false, 21, [2, 3, 4]), 5, true)[0] == [Tens(2), Small(1), Point, Small(2), Small(3), Small(4)];
  }

  /** Decimals (test/test_format.py:169): twenty one point two three four. */
  lemma Decimal21_234Places5()
    ensures DecimalReading(Decimal(false, 21, [2, 3, 4]), 5, true) == [[Tens(2), Small(1), Point, Small(2), Small(3), Small(4)]]
    ensures PronounceDecimal(Decimal(false, 21, [2, 3, 4]), 5, true) == Spelled("twenty one point two three four")
  {
    Decimal21_234Places5Groups();
    Decimal21_234Places3Words4();
    Decimal21_234Places3Text5_6();
    SpokenSingle([Tens(2), Small(1), Point, Small(2), Small(3), Small(4)]);
  }

  lemma DecimalMinus1_234Groups()
    ensures DecimalReading(Decimal(true, 1, [2, 3, 4]), 2, true) == [[Minus, Small(1), Point, Small(2), Small(3)]]
  {
    Int1Magnitude();
    Negative1Signed();
    Decimal1_234Digits();
    assert Cardinal(1, true) == [[Small(1)]];
    assert Shown(Decimal(true, 1, [2, 3, 4]), 2) == [2, 3];
    assert [Minus, Small(1)] + [Point, Small(2), Small(3)] == [Minus, Small(1), Point, Small(2), Small(3)];
    assert |DecimalReading(Decimal(true, 1, [2, 3, 4]), 2, true)| == 1;
    assert DecimalReading(Decimal(true, 1, [2, 3, 4]), 2, true)[0] == [Minus, Small(1), Point, Small(2), Small(3)];
  }

  lemma DecimalMinus1_234Words1()
    ensures Texts([Minus, Small(1), Point, Small(2), Small(3)]) == ["minus", "one", "point", "two", "three"]
  {
    Negative1Words1();
    Decimal21_234Words4();
    TextsConcat([Minus, Small(1)], [Point, Small(2), Small(3)]);
    assert [Minus, Small(1)] + [Point, Small(2), Small(3)] == [Minus, Small(1), Point, Small(2), Small(3)];
    assert ["minus", "one"] + ["point", "two", "three"] == ["minus", "one", "point", "two", "three"];
  }

  lemma DecimalMinus1_234Text2_3()
    ensures Unwords(["minus", "one", "point"]) == "minus one point"
  {
    Negative1Text2();
    JoinWithAppend(" ", ["minus", "one"], "point");
    assert ["minus", "one"] + ["point"] == ["minus", "one", "point"];
    assert "minus one" + " " + "point" == "minus one point";
  }

  lemma DecimalMinus1_234Text3_4()
    ensures Unwords(["minus", "one", "point", "two"]) == "minus one point two"
  {
    DecimalMinus1_234Text2_3();
    JoinWithAppend(" ", ["minus", "one", "point"], "two");
    assert ["minus", "one", "point"] + ["two"] == ["minus", "one", "point", "two"];
    assert "minus one point" + " " + "two" == "minus one point two";
  }

  lemma DecimalMinus1_234Text4_5()
    ensures Unwords(["minus", "one", "point", "two", "three"]) == "minus one point two three"
  {
    DecimalMinus1_234Text3_4();
    JoinWithAppend(" ", ["minus", "one", "point", "two"], "three");
    assert ["minus", "one", "point", "two"] + ["three"] == ["minus", "one", "point", "two", "three"];
    assert "minus one point two" + " " + "three" == "minus one point two three";
  }

  /** Decimals (test/test_format.py:171): minus one point two three. */
  lemma DecimalMinus1_234()
    ensures DecimalReading(Decimal(true, 1, [2, 3, 4]), 2, true) == [[Minus, Small(1), Point, Small(2), Small(3)]]
    ensures PronounceDecimal(Decimal(true, 1, [2, 3, 4]), 2, true) == Spelled("minus one point two three")
  {
    DecimalMinus1_234Groups();
    DecimalMinus1_234Words1();
    DecimalMinus1_234Text4_5();
    SpokenSingle([Minus, Small(1), Point, Small(2), Small(3)]);
  }

  lemma DecimalMinus21_234Signed()
    ensures Signed([[Tens(2), Small(1)]]) == [[Minus, Tens(2), Small(1)]]
  {
    assert [Minus] + [Tens(2), Small(1)] == [Minus, Tens(2), Small(1)];
    assert Signed([[Tens(2), Small(1)]])[0] == [Minus, Tens(2), Small(1)];
  }

  lemma DecimalMinus21_234Groups()
    ensures DecimalReading(Decimal(true, 21, [2, 3, 4]), 2, true) == [[Minus, Tens(2), Small(1), Point, Small(2), Small(3)]]
  {
    Decimal21_234Magnitude();
    DecimalMinus21_234Signed();
    Decimal1_234Digits();
    assert Cardinal(21, true) == [[Tens(2), Small(1)]];
    assert Shown(Decimal(true, 21, [2, 3, 4]), 2) == [2, 3];
    assert [Minus, Tens(2), Small(1)] + [Point, Small(2), Small(3)] == [Minus, Tens(2), Small(1), Point, Small(2), Small(3)];
    assert |DecimalReading(Decimal(true, 21, [2, 3, 4]), 2, true)| == 1;
    assert DecimalReading(Decimal(true, 21, [2, 3, 4]), 2, true)[0] == [Minus, Tens(2), Small(1), Point, Small(2), Small(3)];
  }

  lemma DecimalMinus21_234Words2()
    ensures Texts([Minus, Tens(2), Small(1)]) == ["minus", "twenty", "one"]
  {
    assert WordText(Minus) == "minus";
    assert WordText(Tens(2)) == "twenty";
    assert WordText(Small(1)) == "one";
  }

  lemma DecimalMinus21_234Words3()
    ensures Texts([Minus, Tens(2), Small(1), Point, Small(2), Small(3)]) == ["minus", "twenty", "one", "point", "two", "three"]
  {
    DecimalMinus21_234Words2();
    Decimal21_234Words4();
    TextsConcat([Minus, Tens(2), Small(1)], [Point, Small(2), Small(3)]);
    assert [Minus, Tens(2), Small(1)] + [Point, Small(2), Small(3)] == [Minus, Tens(2), Small(1), Point, Small(2), Small(3)];
    assert ["minus", "twenty", "one"] + ["point", "two", "three"] == ["minus", "twenty", "one", "point", "two", "three"];
  }

  lemma DecimalMinus21_234Text4_3()
    ensures Unwords(["minus", "twenty", "one"]) == "minus twenty one"
  {
    Negative20Text2();
    JoinWithAppend(" ", ["minus", "twenty"], "one");
    assert ["minus", "twenty"] + ["one"] == ["minus", "twenty", "one"];
    assert "minus twenty" + " " + "one" == "minus twenty one";
  }

  lemma DecimalMinus21_234Text5_4()
    ensures Unwords(["minus", "twenty", "one", "point"]) == "minus twenty one point"
  {
    DecimalMinus21_234Text4_3();
    JoinWithAppend(" ", ["minus", "twenty", "one"], "point");
    assert ["minus", "twenty", "one"] + ["point"] == ["minus", "twenty", "one", "point"];
    assert "minus twenty one" + " " + "point" == "minus twenty one point";
  }

  lemma DecimalMinus21_234Text6_5()
    ensures Unwords(["minus", "twenty", "one", "point", "two"]) == "minus twenty one point two"
  {
    DecimalMinus21_234Text5_4();
    JoinWithAppend(" ", ["minus", "twenty", "one", "point"], "two");
    assert ["minus", "twenty", "one", "point"] + ["two"] == ["minus", "twenty", "one", "point", "two"];
    assert "minus twenty one point" + " " + "two" == "minus twenty one point two";
  }

  lemma DecimalMinus21_234Text7_6()
    ensures Unwords(["minus", "twenty", "one", "point", "two", "three"]) == "minus twenty one point two three"
  {
    DecimalMinus21_234Text6_5();
    JoinWithAppend(" ", ["minus", "twenty", "one", "point", "two"], "three");
    assert ["minus", "twenty", "one", "point", "two"] + ["three"] == ["minus", "twenty", "one", "point", "two", "three"];
    assert "minus twenty one point two" + " " + "three" == "minus twenty one point two three";
  }

  /** Decimals (test/test_format.py:173): minus twenty one point two three. */
  lemma DecimalMinus21_234()
    ensures DecimalReading(Decimal(true, 21, [2, 3, 4]), 2, true) == [[Minus, Tens(2), Small(1), Point, Small(2), Small(3)]]
    ensures PronounceDecimal(Decimal(true, 21, [2, 3, 4]), 2, true) == Spelled("minus twenty one point two three")
  {
    DecimalMinus21_234Groups();
    DecimalMinus21_234Words3();
    DecimalMinus21_234Text7_6();
    SpokenSingle([Minus, Tens(2), Small(1), Point, Small(2), Small(3)]);
  }

  lemma DecimalMinus21_234Places1Groups()
    ensures DecimalReading(Decimal(true, 21, [2, 3, 4]), 1, true) == [[Minus, Tens(2), Small(1), Point, Small(2)]]
  {
    Decimal21_234Magnitude();
    DecimalMinus21_234Signed();
    Decimal21_234Places1Digits();
    assert Cardinal(21, true) == [[Tens(2), Small(1)]];
    assert Shown(Decimal(true, 21, [2, 3, 4]), 1) == [2];
    assert [Minus, Tens(2), Small(1)] + [Point, Small(2)] == [Minus, Tens(2), Small(1), Point, Small(2)];
    assert |DecimalReading(Decimal(true, 21, [2, 3, 4]), 1, true)| == 1;
    assert DecimalReading(Decimal(true, 21, [2, 3, 4]), 1, true)[0] == [Minus, Tens(2), Small(1), Point, Small(2)];
  }

  lemma DecimalMinus21_234Places1Words1()
    ensures Texts([Small(1), Point, Small(2)]) == ["one", "point", "two"]
  {
    assert WordText(Small(1)) == "one";
    assert WordText(Point) == "point";
    assert WordText(Small(2)) == "two";
  }

  lemma DecimalMinus21_234Places1Words2()
    ensures Texts([Minus, Tens(2), Small(1), Point, Small(2)]) == ["minus", "twenty", "one", "point", "two"]
  {
    Negative20Words1();
    DecimalMinus21_234Places1Words1();
    TextsConcat([Minus, Tens(2)], [Small(1), Point, Small(2)]);
    assert [Minus, Tens(2)] + [Small(1), Point, Small(2)] == [Minus, Tens(2), Small(1), Point, Small(2)];
    assert ["minus", "twenty"] + ["one", "point", "two"] == ["minus", "twenty", "one", "point", "two"];
  }

  /** Decimals (test/test_format.py:175): minus twenty one point two. */
  lemma DecimalMinus21_234Places1()
    ensures DecimalReading(Decimal(true, 21, [2, 3, 4]), 1, true) == [[Minus, Tens(2), Small(1), Point, Small(2)]]
    ensures PronounceDecimal(Decimal(true, 21, [2, 3, 4]), 1, true) == Spelled("minus twenty one point two")
  {
    DecimalMinus21_234Places1Groups();
    DecimalMinus21_234Places1Words2();
    DecimalMinus21_234Text6_5();
    SpokenSingle([Minus, Tens(2), Small(1), Point, Small(2)]);
  }

  lemma DecimalMinus21_234Places0Groups()
    ensures DecimalReading(Decimal(true, 21, [2, 3, 4]), 0, true) == [[Minus, Tens(2), Small(1)]]
  {
    Decimal21_234Magnitude();
    DecimalMinus21_234Signed();
    assert Cardinal(21, true) == [[Tens(2), Small(1)]];
    assert Shown(Decimal(true, 21, [2, 3, 4]), 0) == [];
    assert |DecimalReading(Decimal(true, 21, [2, 3, 4]), 0, true)| == 1;
    assert DecimalReading(Decimal(true, 21, [2, 3, 4]), 0, true)[0] == [Minus, Tens(2), Small(1)];
  }

  /** Decimals (test/test_format.py:177): minus twenty one. */
  lemma DecimalMinus21_234Places0()
    ensures DecimalReading(Decimal(true, 21, [2, 3, 4]), 0, true) == [[Minus, Tens(2), Small(1)]]
    ensures PronounceDecimal(Decimal(true, 21, [2, 3, 4]), 0, true) == Spelled("minus twenty one")
  {
    DecimalMinus21_234Places0Groups();
    DecimalMinus21_234Words2();
    DecimalMinus21_234Text4_3();
    SpokenSingle([Minus, Tens(2), Small(1)]);
  }

  lemma DecimalMinus21_234Places3Groups()
    ensures DecimalReading(Decimal(true, 21, [2, 3, 4]), 3, true) == [[Minus, Tens(2), Small(1), Point, Small(2), Small(3), Small(4)]]
  {
    Decimal21_234Magnitude();
    DecimalMinus21_234Signed();
    Decimal21_234Places3Digits();
    assert Cardinal(21, true) == [[Tens(2), Small(1)]];
    assert Shown(Decimal(true, 21, [2, 3, 4]), 3) == [2, 3, 4];
    assert [Minus, Tens(2), Small(1)] + [Point, Small(2), Small(3), Small(4)] == [Minus, Tens(2), Small(1), Point, Small(2), Small(3), Small(4)];
    assert |DecimalReading(Decimal(true, 21, [2, 3, 4]), 3, true)| == 1;
    assert DecimalReading(Decimal(true, 21, [2, 3, 4]), 3, true)[0] == [Minus, Tens(2), Small(1), Point, Small(2), Small(3), Small(4)];
  }

  lemma DecimalMinus21_234Places3Words1()
    ensures Texts([Point, Small(2), Small(3), Small(4)]) == ["point", "two", "three", "four"]
  {
    assert WordText(Point) == "point";
    assert WordText(Small(2)) == "two";
    assert WordText(Small(3)) == "three";
    assert WordText(Small(4)) == "four";
  }

  lemma DecimalMinus21_234Places3Words2()
    ensures Texts([Minus, Tens(2), Small(1), Point, Small(2), Small(3), Small(4)]) == ["minus", "twenty", "one", "point", "two", "three", "four"]
  {
    DecimalMinus21_234Words2();
    DecimalMinus21_234Places3Words1();
    TextsConcat([Minus, Tens(2), Small(1)], [Point, Small(2), Small(3), Small(4)]);
    assert [Minus, Tens(2), Small(1)] + [Point, Small(2), Small(3), Small(4)] == [Minus, Tens(2), Small(1), Point, Small(2), Small(3), Small(4)];
    assert ["minus", "twenty", "one"] + ["point", "two", "three", "four"] == ["minus", "twenty", "one", "point", "two", "three", "four"];
  }

  lemma DecimalMinus21_234Places3Text3_7()
    ensures Unwords(["minus", "twenty", "one", "point", "two", "three", "four"]) == "minus twenty one point two three four"
  {
    DecimalMinus21_234Text7_6();
    JoinWithAppend(" ", ["minus", "twenty", "one", "point", "two", "three"], "four");
    assert ["minus", "twenty", "one", "point", "two", "three"] + ["four"] == ["minus", "twenty", "one", "point", "two", "three", "four"];
    assert "minus twenty one point two three" + " " + "four" == "minus twenty one point two three four";
  }

  /** Decimals (test/test_format.py:179): minus twenty one point two three four. */
  lemma DecimalMinus21_234Places3()
    ensures DecimalReading(Decimal(true, 21, [2, 3, 4]), 3, true) == [[Minus, Tens(2), Small(1), Point, Small(2), Small(3), Small(4)]]
    ensures PronounceDecimal(Decimal(true, 21, [2, 3, 4]), 3, true) == Spelled("minus twenty one point two three four")
  {
    DecimalMinus21_234Places3Groups();
    DecimalMinus21_234Places3Words2();
    DecimalMinus21_234Places3Text3_7();
    SpokenSingle([Minus, Tens(2), Small(1), Point, Small(2), Small(3), Small(4)]);
  }

  lemma DecimalMinus21_234Places4Groups()
    ensures DecimalReading(Decimal(true, 21, [2, 3, 4]), 4, true) == [[Minus, Tens(2), Small(1), Point, Small(2), Small(3), Small(4)]]
  {
    Decimal21_234Magnitude();
    DecimalMinus21_234Signed();
    Decimal21_234Places3Digits();
    assert Cardinal(21, true) == [[Tens(2), Small(1)]];
    assert Shown(Decimal(true, 21, [2, 3, 4]), 4) == [2, 3, 4];
    assert [Minus, Tens(2), Small(1)] + [Point, Small(2), Small(3), Small(4)] == [Minus, Tens(2), Small(1), Point, Small(2), Small(3), Small(4)];
    assert |DecimalReading(Decimal(true, 21, [2, 3, 4]), 4, true)| == 1;
    assert DecimalReading(Decimal(true, 21, [2, 3, 4]), 4, true)[0] == [Minus, Tens(2), Small(1), Point, Small(2), Small(3), Small(4)];
  }

  /** Decimals (test/test_format.py:181): minus twenty one point two three four. */
  lemma DecimalMinus21_234Places4()
    ensures DecimalReading(Decimal(true, 21, [2, 3, 4]), 4, true) == [[Minus, Tens(2), Small(1), Point, Small(2), Small(3), Small(4)]]
    ensures PronounceDecimal(Decimal(true, 21, [2, 3, 4]), 4, true) == Spelled("minus twenty one point two three four")
  {
    DecimalMinus21_234Places4Groups();
    DecimalMinus21_234Places3Words2();
    DecimalMinus21_234Places3Text3_7();
    SpokenSingle([Minus, Tens(2), Small(1), Point, Small(2), Small(3), Small(4)]);
  }

  lemma DecimalMinus21_234Places5Groups()
    ensures DecimalReading(Decimal(true, 21, [2, 3, 4]), 5, true) == [[Minus, Tens(2), Small(1), Point, Small(2), Small(3), Small(4)]]
  {
    Decimal21_234Magnitude();
    DecimalMinus21_234Signed();
    Decimal21_234Places3Digits();
    assert Cardinal(21, true) == [[Tens(2), Small(1)]];
    assert Shown(Decimal(true, 21, [2, 3, 4]), 5) == [2, 3, 4];
    assert [Minus, Tens(2), Small(1)] + [Point, Small(2), Small(3), Small(4)] == [Minus, Tens(2), Small(1), Point, Small(2), Small(3), Small(4)];
    assert |DecimalReading(Decimal(true, 21, [2, 3, 4]), 5, true)| == 1;
    assert DecimalReading(Decimal(true, 21, [2, 3, 4]), 5, true)[0] == [Minus, Tens(2), Small(1), Point, Small(2), Small(3), Small(4)];
  }

  /** Decimals (test/test_format.py:183): minus twenty one point two three four. */
  lemma DecimalMinus21_234Places5()
    ensures DecimalReading(Decimal(true, 21, [2, 3, 4]), 5, true) == [[Minus, Tens(2), Small(1), Point, Small(2), Small(3), Small(4)]]
    ensures PronounceDecimal(Decimal(true, 21, [2, 3, 4]), 5, true) == Spelled("minus twenty one point two three four")
  {
    DecimalMinus21_234Places5Groups();
    DecimalMinus21_234Places3Words2();
    DecimalMinus21_234Places3Text3_7();
    SpokenSingle([Minus, Tens(2), Small(1), Point, Small(2), Small(3), Small(4)]);
  }

  lemma Hundreds100Group100_0()
    ensures ShortGroup(100, 0) == [[Small(1), Hundred]]
  {
    assert SubThousand(100) == [Small(1), Hundred];
  }

  lemma Hundreds100Magnitude()
    ensures Magnitude(100, true) == [[Small(1), Hundred]]
  {
    Hundreds100Group100_0();
    assert ShortGroups(100, 0) == [[Small(1), Hundred]];
  }

  lemma Hundreds100Words2()
    ensures Texts([Small(1), Hundred]) == ["one", "hundred"]
  {
    assert WordText(Small(1)) == "one";
    assert WordText(Hundred) == "hundred";
  }

  lemma Hundreds100Text3()
    ensures Unwords(["one", "hundred"]) == "one hundred"
  {
  }

  /** Hundreds and groups (test/test_format.py:187): one hundred. */
  lemma Hundreds100()
    ensures Reading(100, true, false) == [[Small(1), Hundred]]
    ensures PronounceNumber(100, true, false) == Spelled("one hundred")
  {
    Hundreds100Magnitude();
    Hundreds100Words2();
    Hundreds100Text3();
    assert Colloquial(100).None?;
    assert Cardinal(100, true) == [[Small(1), Hundred]];
    SpokenSingle([Small(1), Hundred]);
  }

  lemma Hundreds666Group666_0()
    ensures ShortGroup(666, 0) == [[Small(6), Hundred, And, Tens(6), Small(6)]]
  {
    assert SubHundred(66) == [Tens(6), Small(6)];
    assert SubThousand(666) == [Small(6), Hundred, And, Tens(6), Small(6)];
  }

  lemma Hundreds666Magnitude()
    ensures Magnitude(666, true) == [[Small(6), Hundred, And, Tens(6), Small(6)]]
  {
    Hundreds666Group666_0();
    assert ShortGroups(666, 0) == [[Small(6), Hundred, And, Tens(6), Small(6)]];
  }

  lemma Hundreds666Words2()
    ensures Texts([Small(6), Hundred]) == ["six", "hundred"]
  {
    assert WordText(Small(6)) == "six";
    assert WordText(Hundred) == "hundred";
  }

  lemma Hundreds666Words3()
    ensures Texts([And, Tens(6), Small(6)]) == ["and", "sixty", "six"]
  {
    assert WordText(And) == "and";
    assert WordText(Tens(6)) == "sixty";
    assert WordText(Small(6)) == "six";
  }

  lemma Hundreds666Words4()
    ensures Texts([Small(6), Hundred, And, Tens(6), Small(6)]) == ["six", "hundred", "and", "sixty", "six"]
  {
    Hundreds666Words2();
    Hundreds666Words3();
    TextsConcat([Small(6), Hundred], [And, Tens(6), Small(6)]);
    assert [Small(6), Hundred] + [And, Tens(6), Small(6)] == [Small(6), Hundred, And, Tens(6), Small(6)];
    assert ["six", "hundred"] + ["and", "sixty", "six"] == ["six", "hundred", "and", "sixty", "six"];
  }

  lemma Hundreds666Text5_2()
    ensures Unwords(["six", "hundred"]) == "six hundred"
  {
    JoinWithAppend(" ", ["six"], "hundred");
    assert ["six"] + ["hundred"] == ["six", "hundred"];
    assert "six" + " " + "hundred" == "six hundred";
  }

  lemma Hundreds666Text6_3()
    ensures Unwords(["six", "hundred", "and"]) == "six hundred and"
  {
    Hundreds666Text5_2();
    JoinWithAppend(" ", ["six", "hundred"], "and");
    assert ["six", "hundred"] + ["and"] == ["six", "hundred", "and"];
    assert "six hundred" + " " + "and" == "six hundred and";
  }

  lemma Hundreds666Text7_4()
    ensures Unwords(["six", "hundred", "and", "sixty"]) == "six hundred and sixty"
  {
    Hundreds666Text6_3();
    JoinWithAppend(" ", ["six", "hundred", "and"], "sixty");
    assert ["six", "hundred", "and"] + ["sixty"] == ["six", "hundred", "and", "sixty"];
    assert "six hundred and" + " " + "sixty" == "six hundred and sixty";
  }

  lemma Hundreds666Text8_5()
    ensures Unwords(["six", "hundred", "and", "sixty", "six"]) == "six hundred and sixty six"
  {
    Hundreds666Text7_4();
    JoinWithAppend(" ", ["six", "hundred", "and", "sixty"], "six");
    assert ["six", "hundred", "and", "sixty"] + ["six"] == ["six", "hundred", "and", "sixty", "six"];
    assert "six hundred and sixty" + " " + "six" == "six hundred and sixty six";
  }

  /** Hundreds and groups (test/test_format.py:188): six hundred and sixty six. */
  lemma Hundreds666()
    ensures Reading(666, true, false) == [[Small(6), Hundred, And, Tens(6), Small(6)]]
    ensures PronounceNumber(666, true, false) == Spelled("six hundred and sixty six")
  {
    Hundreds666Magnitude();
    Hundreds666Words4();
    Hundreds666Text8_5();
    assert Colloquial(666).None?;
    assert Cardinal(666, true) == [[Small(6), Hundred, And, Tens(6), Small(6)]];
    SpokenSingle([Small(6), Hundred, And, Tens(6), Small(6)]);
  }

  lemma Hundreds1456Colloquial()
    ensures Colloquial(1456) == Some([Small(14), Tens(5), Small(6)])
  {
    assert SubHundred(56) == [Tens(5), Small(6)];
    assert [Small(14)] + [Tens(5), Small(6)] == [Small(14), Tens(5), Small(6)];
  }

  lemma Hundreds1456Words1()
    ensures Texts([Small(14), Tens(5), Small(6)]) == ["fourteen", "fifty", "six"]
  {
    assert WordText(Small(14)) == "fourteen";
    assert WordText(Tens(5)) == "fifty";
    assert WordText(Small(6)) == "six";
  }

  lemma Hundreds1456Text2()
    ensures Unwords(["fourteen", "fifty", "six"]) == "fourteen fifty six"
  {
  }

  /** Hundreds and groups (test/test_format.py:189): fourteen fifty six. */
  lemma Hundreds1456()
    ensures Reading(1456, true, false) == [[Small(14), Tens(5), Small(6)]]
    ensures PronounceNumber(1456, true, false) == Spelled("fourteen fifty six")
  {
    Hundreds1456Colloquial();
    Hundreds1456Words1();
    Hundreds1456Text2();
    SpokenSingle([Small(14), Tens(5), Small(6)]);
  }

  lemma Hundreds103254654Group103_2()
    ensures ShortGroup(103, 2) == [[Small(1), Hundred, And, Small(3), Scale(1)]]
  {
    assert SubHundred(3) == [Small(3)];
    assert SubThousand(103) == [Small(1), Hundred, And, Small(3)];
    assert SubThousand(103) + [Scale(1)] == [Small(1), Hundred, And, Small(3), Scale(1)];
  }

  lemma Hundreds103254654Group254_1()
    ensures ShortGroup(254, 1) == [[Small(2), Hundred, And, Tens(5), Small(4), Scale(0)]]
  {
    assert SubHundred(54) == [Tens(5), Small(4)];
    assert SubThousand(254) == [Small(2), Hundred, And, Tens(5), Small(4)];
    assert SubThousand(254) + [Scale(0)] == [Small(2), Hundred, And, Tens(5), Small(4), Scale(0)];
  }

  lemma Hundreds103254654Group654_0()
    ensures ShortGroup(654, 0) == [[Small(6), Hundred, And, Tens(5), Small(4)]]
  {
    assert SubHundred(54) == [Tens(5), Small(4)];
    assert SubThousand(654) == [Small(6), Hundred, And, Tens(5), Small(4)];
  }

  lemma Hundreds103254654Magnitude()
    ensures Magnitude(103254654, true) == [[Small(1), Hundred, And, Small(3), Scale(1)], [Small(2), Hundred, And, Tens(5), Small(4), Scale(0)], [Small(6), Hundred, And, Tens(5), Small(4)]]
  {
    Hundreds103254654Group103_2();
    Hundreds103254654Group254_1();
    Hundreds103254654Group654_0();
    assert ShortGroups(103, 2) == [[Small(1), Hundred, And, Small(3), Scale(1)]];
    assert ShortGroups(103254, 1) == [[Small(1), Hundred, And, Small(3), Scale(1)], [Small(2), Hundred, And, Tens(5), Small(4), Scale(0)]];
    assert ShortGroups(103254654, 0) == [[Small(1), Hundred, And, Small(3), Scale(1)], [Small(2), Hundred, And, Tens(5), Small(4), Scale(0)], [Small(6), Hundred, And, Tens(5), Small(4)]];
  }

  lemma Hundreds103254654Words4()
    ensures Texts([Small(1), Hundred, And, Small(3), Scale(1)]) == ["one", "hundred", "and", "three", "million"]
  {
    assert WordText(Small(1)) == "one";
    assert WordText(Hundred) == "hundred";
    assert WordText(And) == "and";
    assert WordText(Small(3)) == "three";
    assert WordText(Scale(1)) == "million";
  }

  lemma Hundreds103254654Text5_3()
    ensures Unwords(["one", "hundred", "and"]) == "one hundred and"
  {
    Hundreds100Text3();
    JoinWithAppend(" ", ["one", "hundred"], "and");
    assert ["one", "hundred"] + ["and"] == ["one", "hundred", "and"];
    assert "one hundred" + " " + "and" == "one hundred and";
  }

  lemma Hundreds103254654Text6_4()
    ensures Unwords(["one", "hundred", "and", "three"]) == "one hundred and three"
  {
    Hundreds103254654Text5_3();
    JoinWithAppend(" ", ["one", "hundred", "and"], "three");
    assert ["one", "hundred", "and"] + ["three"] == ["one", "hundred", "and", "three"];
    assert "one hundred and" + " " + "three" == "one hundred and three";
  }

  lemma Hundreds103254654Text7_5()
    ensures Unwords(["one", "hundred", "and", "three", "million"]) == "one hundred and three million"
  {
    Hundreds103254654Text6_4();
    JoinWithAppend(" ", ["one", "hundred", "and", "three"], "million");
    assert ["one", "hundred", "and", "three"] + ["million"] == ["one", "hundred", "and", "three", "million"];
    assert "one hundred and three" + " " + "million" == "one hundred and three million";
  }

  lemma Hundreds103254654Group0Text()
    ensures Unwords(Texts([Small(1), Hundred, And, Small(3), Scale(1)])) == "one hundred and three million"
  {
    Hundreds103254654Words4();
    Hundreds103254654Text7_5();
  }

  lemma Hundreds103254654Spoken1()
    ensures Spoken([[Small(1), Hundred, And, Small(3), Scale(1)]]) == "one hundred and three million"
  {
    Hundreds103254654Group0Text();
    SpokenSingle([Small(1), Hundred, And, Small(3), Scale(1)]);
  }

  lemma Hundreds103254654Words10()
    ensures Texts([Small(2), Hundred, And, Tens(5), Small(4), Scale(0)]) == ["two", "hundred", "and", "fifty", "four", "thousand"]
  {
    assert WordText(Small(2)) == "two";
    assert WordText(Hundred) == "hundred";
    assert WordText(And) == "and";
    assert WordText(Tens(5)) == "fifty";
    assert WordText(Small(4)) == "four";
    assert WordText(Scale(0)) == "thousand";
  }

  lemma Hundreds103254654Text11_2()
    ensures Unwords(["two", "hundred"]) == "two hundred"
  {
    JoinWithAppend(" ", ["two"], "hundred");
    assert ["two"] + ["hundred"] == ["two", "hundred"];
    assert "two" + " " + "hundred" == "two hundred";
  }

  lemma Hundreds103254654Text12_3()
    ensures Unwords(["two", "hundred", "and"]) == "two hundred and"
  {
    Hundreds103254654Text11_2();
    JoinWithAppend(" ", ["two", "hundred"], "and");
    assert ["two", "hundred"] + ["and"] == ["two", "hundred", "and"];
    assert "two hundred" + " " + "and" == "two hundred and";
  }

  lemma Hundreds103254654Text13_4()
    ensures Unwords(["two", "hundred", "and", "fifty"]) == "two hundred and fifty"
  {
    Hundreds103254654Text12_3();
    JoinWithAppend(" ", ["two", "hundred", "and"], "fifty");
    assert ["two", "hundred", "and"] + ["fifty"] == ["two", "hundred", "and", "fifty"];
    assert "two hundred and" + " " + "fifty" == "two hundred and fifty";
  }

  lemma Hundreds103254654Text14_5()
    ensures Unwords(["two", "hundred", "and", "fifty", "four"]) == "two hundred and fifty four"
  {
    Hundreds103254654Text13_4();
    JoinWithAppend(" ", ["two", "hundred", "and", "fifty"], "four");
    assert ["two", "hundred", "and", "fifty"] + ["four"] == ["two", "hundred", "and", "fifty", "four"];
    assert "two hundred and fifty" + " " + "four" == "two hundred and fifty four";
  }

  lemma Hundreds103254654Text15_6()
    ensures Unwords(["two", "hundred", "and", "fifty", "four", "thousand"]) == "two hundred and fifty four thousand"
  {
    Hundreds103254654Text14_5();
    JoinWithAppend(" ", ["two", "hundred", "and", "fifty", "four"], "thousand");
    assert ["two", "hundred", "and", "fifty", "four"] + ["thousand"] == ["two", "hundred", "and", "fifty", "four", "thousand"];
    assert "two hundred and fifty four" + " " + "thousand" == "two hundred and fifty four thousand";
  }

  lemma Hundreds103254654Group1Text()
    ensures Unwords(Texts([Small(2), Hundred, And, Tens(5), Small(4), Scale(0)])) == "two hundred and fifty four thousand"
  {
    Hundreds103254654Words10();
    Hundreds103254654Text15_6();
  }

  lemma Hundreds103254654Spoken2()
    ensures Spoken([[Small(1), Hundred, And, Small(3), Scale(1)], [Small(2), Hundred, And, Tens(5), Small(4), Scale(0)]]) == "one hundred and three million" + ", " + "two hundred and fifty four thousand"
  {
    Hundreds103254654Spoken1();
    Hundreds103254654Group1Text();
    SpokenSnoc([[Small(1), Hundred, And, Small(3), Scale(1)], [Small(2), Hundred, And, Tens(5), Small(4), Scale(0)]]);
    assert [[Small(1), Hundred, And, Small(3), Scale(1)], [Small(2), Hundred, And, Tens(5), Small(4), Scale(0)]][..1] == [[Small(1), Hundred, And, Small(3), Scale(1)]];
  }

  lemma Hundreds103254654Words18()
    ensures Texts([Small(6), Hundred, And, Tens(5), Small(4)]) == ["six", "hundred", "and", "fifty", "four"]
  {
    assert WordText(Small(6)) == "six";
    assert WordText(Hundred) == "hundred";
    assert WordText(And) == "and";
    assert WordText(Tens(5)) == "fifty";
    assert WordText(Small(4)) == "four";
  }

  lemma Hundreds103254654Text19_4()
    ensures Unwords(["six", "hundred", "and", "fifty"]) == "six hundred and fifty"
  {
    Hundreds666Text6_3();
    JoinWithAppend(" ", ["six", "hundred", "and"], "fifty");
    assert ["six", "hundred", "and"] + ["fifty"] == ["six", "hundred", "and", "fifty"];
    assert "six hundred and" + " " + "fifty" == "six hundred and fifty";
  }

  lemma Hundreds103254654Text20_5()
    ensures Unwords(["six", "hundred", "and", "fifty", "four"]) == "six hundred and fifty four"
  {
    Hundreds103254654Text19_4();
    JoinWithAppend(" ", ["six", "hundred", "and", "fifty"], "four");
    assert ["six", "hundred", "and", "fifty"] + ["four"] == ["six", "hundred", "and", "fifty", "four"];
    assert "six hundred and fifty" + " " + "four" == "six hundred and fifty four";
  }

  lemma Hundreds103254654Group2Text()
    ensures Unwords(Texts([Small(6), Hundred, And, Tens(5), Small(4)])) == "six hundred and fifty four"
  {
    Hundreds103254654Words18();
    Hundreds103254654Text20_5();
  }

  lemma Hundreds103254654Spoken3()
    ensures Spoken([[Small(1), Hundred, And, Small(3), Scale(1)], [Small(2), Hundred, And, Tens(5), Small(4), Scale(0)], [Small(6), Hundred, And, Tens(5), Small(4)]]) == "one hundred and three million" + ", " + "two hundred and fifty four thousand" + ", " + "six hundred and fifty four"
  {
    Hundreds103254654Spoken2();
    Hundreds103254654Group2Text();
    SpokenSnoc([[Small(1), Hundred, And, Small(3), Scale(1)], [Small(2), Hundred, And, Tens(5), Small(4), Scale(0)], [Small(6), Hundred, And, Tens(5), Small(4)]]);
    assert [[Small(1), Hundred, And, Small(3), Scale(1)], [Small(2), Hundred, And, Tens(5), Small(4), Scale(0)], [Small(6), Hundred, And, Tens(5), Small(4)]][..2] == [[Small(1), Hundred, And, Small(3), Scale(1)], [Small(2), Hundred, And, Tens(5), Small(4), Scale(0)]];
  }

  /** Hundreds and groups (test/test_format.py:190): one hundred and three million, two hundred and fifty four thousand, six hundred and fifty four. */
  lemma Hundreds103254654()
    ensures Reading(103254654, true, false) == [[Small(1), Hundred, And, Small(3), Scale(1)], [Small(2), Hundred, And, Tens(5), Small(4), Scale(0)], [Small(6), Hundred, And, Tens(5), Small(4)]]
    ensures PronounceNumber(103254654, true, false) == Spelled("one hundred and three million" + ", " + "two hundred and fifty four thousand" + ", " + "six hundred and fifty four")
  {
    Hundreds103254654Magnitude();
    Hundreds103254654Spoken3();
    assert Colloquial(103254654).None?;
    assert Cardinal(103254654, true) == [[Small(1), Hundred, And, Small(3), Scale(1)], [Small(2), Hundred, And, Tens(5), Small(4), Scale(0)], [Small(6), Hundred, And, Tens(5), Small(4)]];
  }

  lemma Hundreds1512457Group1_2()
    ensures ShortGroup(1, 2) == [[Small(1), Scale(1)]]
  {
    assert SubThousand(1) == [Small(1)];
    assert SubThousand(1) + [Scale(1)] == [Small(1), Scale(1)];
  }

  lemma Hundreds1512457Group512_1()
    ensures ShortGroup(512, 1) == [[Small(5), Hundred, And, Small(12), Scale(0)]]
  {
    assert SubHundred(12) == [Small(12)];
    assert SubThousand(512) == [Small(5), Hundred, And, Small(12)];
    assert SubThousand(512) + [Scale(0)] == [Small(5), Hundred, And, Small(12), Scale(0)];
  }

  lemma Hundreds1512457Group457_0()
    ensures ShortGroup(457, 0) == [[Small(4), Hundred, And, Tens(5), Small(7)]]
  {
    assert SubHundred(57) == [Tens(5), Small(7)];
    assert SubThousand(457) == [Small(4), Hundred, And, Tens(5), Small(7)];
  }

  lemma Hundreds1512457Magnitude()
    ensures Magnitude(1512457, true) == [[Small(1), Scale(1)], [Small(5), Hundred, And, Small(12), Scale(0)], [Small(4), Hundred, And, Tens(5), Small(7)]]
  {
    Hundreds1512457Group1_2();
    Hundreds1512457Group512_1();
    Hundreds1512457Group457_0();
    assert ShortGroups(1, 2) == [[Small(1), Scale(1)]];
    assert ShortGroups(1512, 1) == [[Small(1), Scale(1)], [Small(5), Hundred, And, Small(12), Scale(0)]];
    assert ShortGroups(1512457, 0) == [[Small(1), Scale(1)], [Small(5), Hundred, And, Small(12), Scale(0)], [Small(4), Hundred, And, Tens(5), Small(7)]];
  }

  lemma Hundreds1512457Words4()
    ensures Texts([Small(1), Scale(1)]) == ["one", "million"]
  {
    assert WordText(Small(1)) == "one";
    assert WordText(Scale(1)) == "million";
  }

  lemma Hundreds1512457Text5()
    ensures Unwords(["one", "million"]) == "one million"
  {
  }

  lemma Hundreds1512457Group0Text()
    ensures Unwords(Texts([Small(1), Scale(1)])) == "one million"
  {
    Hundreds1512457Words4();
    Hundreds1512457Text5();
  }

  lemma Hundreds1512457Spoken1()
    ensures Spoken([[Small(1), Scale(1)]]) == "one million"
  {
    Hundreds1512457Group0Text();
    SpokenSingle([Small(1), Scale(1)]);
  }

  lemma Hundreds1512457Words8()
    ensures Texts([Small(5), Hundred, And, Small(12), Scale(0)]) == ["five", "hundred", "and", "twelve", "thousand"]
  {
    assert WordText(Small(5)) == "five";
    assert WordText(Hundred) == "hundred";
    assert WordText(And) == "and";
    assert WordText(Small(12)) == "twelve";
    assert WordText(Scale(0)) == "thousand";
  }

  lemma Hundreds1512457Text9_2()
    ensures Unwords(["five", "hundred"]) == "five hundred"
  {
    JoinWithAppend(" ", ["five"], "hundred");
    assert ["five"] + ["hundred"] == ["five", "hundred"];
    assert "five" + " " + "hundred" == "five hundred";
  }

  lemma Hundreds1512457Text10_3()
    ensures Unwords(["five", "hundred", "and"]) == "five hundred and"
  {
    Hundreds1512457Text9_2();
    JoinWithAppend(" ", ["five", "hundred"], "and");
    assert ["five", "hundred"] + ["and"] == ["five", "hundred", "and"];
    assert "five hundred" + " " + "and" == "five hundred and";
  }

  lemma Hundreds1512457Text11_4()
    ensures Unwords(["five", "hundred", "and", "twelve"]) == "five hundred and twelve"
  {
    Hundreds1512457Text10_3();
    JoinWithAppend(" ", ["five", "hundred", "and"], "twelve");
    assert ["five", "hundred", "and"] + ["twelve"] == ["five", "hundred", "and", "twelve"];
    assert "five hundred and" + " " + "twelve" == "five hundred and twelve";
  }

  lemma Hundreds1512457Text12_5()
    ensures Unwords(["five", "hundred", "and", "twelve", "thousand"]) == "five hundred and twelve thousand"
  {
    Hundreds1512457Text11_4();
    JoinWithAppend(" ", ["five", "hundred", "and", "twelve"], "thousand");
    assert ["five", "hundred", "and", "twelve"] + ["thousand"] == ["five", "hundred", "and", "twelve", "thousand"];
    assert "five hundred and twelve" + " " + "thousand" == "five hundred and twelve thousand";
  }

  lemma Hundreds1512457Group1Text()
    ensures Unwords(Texts([Small(5), Hundred, And, Small(12), Scale(0)])) == "five hundred and twelve thousand"
  {
    Hundreds1512457Words8();
    Hundreds1512457Text12_5();
  }

  lemma Hundreds1512457Spoken2()
    ensures Spoken([[Small(1), Scale(1)], [Small(5), Hundred, And, Small(12), Scale(0)]]) == "one million" + ", " + "five hundred and twelve thousand"
  {
    Hundreds1512457Spoken1();
    Hundreds1512457Group1Text();
    SpokenSnoc([[Small(1), Scale(1)], [Small(5), Hundred, And, Small(12), Scale(0)]]);
    assert [[Small(1), Scale(1)], [Small(5), Hundred, And, Small(12), Scale(0)]][..1] == [[Small(1), Scale(1)]];
  }

  lemma Hundreds1512457Words15()
    ensures Texts([Small(4), Hundred, And, Tens(5), Small(7)]) == ["four", "hundred", "and", "fifty", "seven"]
  {
    assert WordText(Small(4)) == "four";
    assert WordText(Hundred) == "hundred";
    assert WordText(And) == "and";
    assert WordText(Tens(5)) == "fifty";
    assert WordText(Small(7)) == "seven";
  }

  lemma Hundreds1512457Text16_2()
    ensures Unwords(["four", "hundred"]) == "four hundred"
  {
    JoinWithAppend(" ", ["four"], "hundred");
    assert ["four"] + ["hundred"] == ["four", "hundred"];
    assert "four" + " " + "hundred" == "four hundred";
  }

  lemma Hundreds1512457Text17_3()
    ensures Unwords(["four", "hundred", "and"]) == "four hundred and"
  {
    Hundreds1512457Text16_2();
    JoinWithAppend(" ", ["four", "hundred"], "and");
    assert ["four", "hundred"] + ["and"] == ["four", "hundred", "and"];
    assert "four hundred" + " " + "and" == "four hundred and";
  }

  lemma Hundreds1512457Text18_4()
    ensures Unwords(["four", "hundred", "and", "fifty"]) == "four hundred and fifty"
  {
    Hundreds1512457Text17_3();
    JoinWithAppend(" ", ["four", "hundred", "and"], "fifty");
    assert ["four", "hundred", "and"] + ["fifty"] == ["four", "hundred", "and", "fifty"];
    assert "four hundred and" + " " + "fifty" == "four hundred and fifty";
  }

  lemma Hundreds1512457Text19_5()
    ensures Unwords(["four", "hundred", "and", "fifty", "seven"]) == "four hundred and fifty seven"
  {
    Hundreds1512457Text18_4();
    JoinWithAppend(" ", ["four", "hundred", "and", "fifty"], "seven");
    assert ["four", "hundred", "and", "fifty"] + ["seven"] == ["four", "hundred", "and", "fifty", "seven"];
    assert "four hundred and fifty" + " " + "seven" == "four hundred and fifty seven";
  }

  lemma Hundreds1512457Group2Text()
    ensures Unwords(Texts([Small(4), Hundred, And, Tens(5), Small(7)])) == "four hundred and fifty seven"
  {
    Hundreds1512457Words15();
    Hundreds1512457Text19_5();
  }

  lemma Hundreds1512457Spoken3()
    ensures Spoken([[Small(1), Scale(1)], [Small(5), Hundred, And, Small(12), Scale(0)], [Small(4), Hundred, And, Tens(5), Small(7)]]) == "one million" + ", " + "five hundred and twelve thousand" + ", " + "four hundred and fifty seven"
  {
    Hundreds1512457Spoken2();
    Hundreds1512457Group2Text();
    SpokenSnoc([[Small(1), Scale(1)], [Small(5), Hundred, And, Small(12), Scale(0)], [Small(4), Hundred, And, Tens(5), Small(7)]]);
    assert [[Small(1), Scale(1)], [Small(5), Hundred, And, Small(12), Scale(0)], [Small(4), Hundred, And, Tens(5), Small(7)]][..2] == [[Small(1), Scale(1)], [Small(5), Hundred, And, Small(12), Scale(0)]];
  }

  /** Hundreds and groups (test/test_format.py:195): one million, five hundred and twelve thousand, four hundred and fifty seven. */
  lemma Hundreds1512457()
    ensures Reading(1512457, true, false) == [[Small(1), Scale(1)], [Small(5), Hundred, And, Small(12), Scale(0)], [Small(4), Hundred, And, Tens(5), Small(7)]]
    ensures PronounceNumber(1512457, true, false) == Spelled("one million" + ", " + "five hundred and twelve thousand" + ", " + "four hundred and fifty seven")
  {
    Hundreds1512457Magnitude();
    Hundreds1512457Spoken3();
    assert Colloquial(1512457).None?;
    assert Cardinal(1512457, true) == [[Small(1), Scale(1)], [Small(5), Hundred, And, Small(12), Scale(0)], [Small(4), Hundred, And, Tens(5), Small(7)]];
  }

  lemma Hundreds209996Group209_1()
    ensures ShortGroup(209, 1) == [[Small(2), Hundred, And, Small(9), Scale(0)]]
  {
    assert SubHundred(9) == [Small(9)];
    assert SubThousand(209) == [Small(2), Hundred, And, Small(9)];
    assert SubThousand(209) + [Scale(0)] == [Small(2), Hundred, And, Small(9), Scale(0)];
  }

  lemma Hundreds209996Group996_0()
    ensures ShortGroup(996, 0) == [[Small(9), Hundred, And, Tens(9), Small(6)]]
  {
    assert SubHundred(96) == [Tens(9), Small(6)];
    assert SubThousand(996) == [Small(9), Hundred, And, Tens(9), Small(6)];
  }

  lemma Hundreds209996Magnitude()
    ensures Magnitude(209996, true) == [[Small(2), Hundred, And, Small(9), Scale(0)], [Small(9), Hundred, And, Tens(9), Small(6)]]
  {
    Hundreds209996Group209_1();
    Hundreds209996Group996_0();
    assert ShortGroups(209, 1) == [[Small(2), Hundred, And, Small(9), Scale(0)]];
    assert ShortGroups(209996, 0) == [[Small(2), Hundred, And, Small(9), Scale(0)], [Small(9), Hundred, And, Tens(9), Small(6)]];
  }

  lemma Hundreds209996Words3()
    ensures Texts([Small(2), Hundred, And, Small(9), Scale(0)]) == ["two", "hundred", "and", "nine", "thousand"]
  {
    assert WordText(Small(2)) == "two";
    assert WordText(Hundred) == "hundred";
    assert WordText(And) == "and";
    assert WordText(Small(9)) == "nine";
    assert WordText(Scale(0)) == "thousand";
  }

  lemma Hundreds209996Text4_4()
    ensures Unwords(["two", "hundred", "and", "nine"]) == "two hundred and nine"
  {
    Hundreds103254654Text12_3();
    JoinWithAppend(" ", ["two", "hundred", "and"], "nine");
    assert ["two", "hundred", "and"] + ["nine"] == ["two", "hundred", "and", "nine"];
    assert "two hundred and" + " " + "nine" == "two hundred and nine";
  }

  lemma Hundreds209996Text5_5()
    ensures Unwords(["two", "hundred", "and", "nine", "thousand"]) == "two hundred and nine thousand"
  {
    Hundreds209996Text4_4();
    JoinWithAppend(" ", ["two", "hundred", "and", "nine"], "thousand");
    assert ["two", "hundred", "and", "nine"] + ["thousand"] == ["two", "hundred", "and", "nine", "thousand"];
    assert "two hundred and nine" + " " + "thousand" == "two hundred and nine thousand";
  }

  lemma Hundreds209996Group0Text()
    ensures Unwords(Texts([Small(2), Hundred, And, Small(9), Scale(0)])) == "two hundred and nine thousand"
  {
    Hundreds209996Words3();
    Hundreds209996Text5_5();
  }

  lemma Hundreds209996Spoken1()
    ensures Spoken([[Small(2), Hundred, And, Small(9), Scale(0)]]) == "two hundred and nine thousand"
  {
    Hundreds209996Group0Text();
    SpokenSingle([Small(2), Hundred, And, Small(9), Scale(0)]);
  }

  lemma Hundreds209996Words8()
    ensures Texts([Small(9), Hundred, And, Tens(9), Small(6)]) == ["nine", "hundred", "and", "ninety", "six"]
  {
    assert WordText(Small(9)) == "nine";
    assert WordText(Hundred) == "hundred";
    assert WordText(And) == "and";
    assert WordText(Tens(9)) == "ninety";
    assert WordText(Small(6)) == "six";
  }

  lemma Hundreds209996Text9_2()
    ensures Unwords(["nine", "hundred"]) == "nine hundred"
  {
    JoinWithAppend(" ", ["nine"], "hundred");
    assert ["nine"] + ["hundred"] == ["nine", "hundred"];
    assert "nine" + " " + "hundred" == "nine hundred";
  }

  lemma Hundreds209996Text10_3()
    ensures Unwords(["nine", "hundred", "and"]) == "nine hundred and"
  {
    Hundreds209996Text9_2();
    JoinWithAppend(" ", ["nine", "hundred"], "and");
    assert ["nine", "hundred"] + ["and"] == ["nine", "hundred", "and"];
    assert "nine hundred" + " " + "and" == "nine hundred and";
  }

  lemma Hundreds209996Text11_4()
    ensures Unwords(["nine", "hundred", "and", "ninety"]) == "nine hundred and ninety"
  {
    Hundreds209996Text10_3();
    JoinWithAppend(" ", ["nine", "hundred", "and"], "ninety");
    assert ["nine", "hundred", "and"] + ["ninety"] == ["nine", "hundred", "and", "ninety"];
    assert "nine hundred and" + " " + "ninety" == "nine hundred and ninety";
  }

  lemma Hundreds209996Text12_5()
    ensures Unwords(["nine", "hundred", "and", "ninety", "six"]) == "nine hundred and ninety six"
  {
    Hundreds209996Text11_4();
    JoinWithAppend(" ", ["nine", "hundred", "and", "ninety"], "six");
    assert ["nine", "hundred", "and", "ninety"] + ["six"] == ["nine", "hundred", "and", "ninety", "six"];
    assert "nine hundred and ninety" + " " + "six" == "nine hundred and ninety six";
  }

  lemma Hundreds209996Group1Text()
    ensures Unwords(Texts([Small(9), Hundred, And, Tens(9), Small(6)])) == "nine hundred and ninety six"
  {
    Hundreds209996Words8();
    Hundreds209996Text12_5();
  }

  lemma Hundreds209996Spoken2()
    ensures Spoken([[Small(2), Hundred, And, Small(9), Scale(0)], [Small(9), Hundred, And, Tens(9), Small(6)]]) == "two hundred and nine thousand" + ", " + "nine hundred and ninety six"
  {
    Hundreds209996Spoken1();
    Hundreds209996Group1Text();
    SpokenSnoc([[Small(2), Hundred, And, Small(9), Scale(0)], [Small(9), Hundred, And, Tens(9), Small(6)]]);
    assert [[Small(2), Hundred, And, Small(9), Scale(0)], [Small(9), Hundred, And, Tens(9), Small(6)]][..1] == [[Small(2), Hundred, And, Small(9), Scale(0)]];
  }

  lemma Hundreds209996Joined()
    ensures "two hundred and nine thousand" + ", " + "nine hundred and ninety six" == "two hundred and nine thousand, nine hundred and ninety six"
  {
  }

  /** Hundreds and groups (test/test_format.py:199): two hundred and nine thousand, nine hundred and ninety six. */
  lemma Hundreds209996()
    ensures Reading(209996, true, false) == [[Small(2), Hundred, And, Small(9), Scale(0)], [Small(9), Hundred, And, Tens(9), Small(6)]]
    ensures PronounceNumber(209996, true, false) == Spelled("two hundred and nine thousand, nine hundred and ninety six")
  {
    Hundreds209996Magnitude();
    Hundreds209996Spoken2();
    Hundreds209996Joined();
    assert Colloquial(209996).None?;
    assert Cardinal(209996, true) == [[Small(2), Hundred, And, Small(9), Scale(0)], [Small(9), Hundred, And, Tens(9), Small(6)]];
  }

  lemma Large299792458ShortGroup299_2()
    ensures ShortGroup(299, 2) == [[Small(2), Hundred, And, Tens(9), Small(9), Scale(1)]]
  {
    assert SubHundred(99) == [Tens(9), Small(9)];
    assert SubThousand(299) == [Small(2), Hundred, And, Tens(9), Small(9)];
    assert SubThousand(299) + [Scale(1)] == [Small(2), Hundred, And, Tens(9), Small(9), Scale(1)];
  }

  lemma Large299792458ShortGroup792_1()
    ensures ShortGroup(792, 1) == [[Small(7), Hundred, And, Tens(9), Small(2), Scale(0)]]
  {
    assert SubHundred(92) == [Tens(9), Small(2)];
    assert SubThousand(792) == [Small(7), Hundred, And, Tens(9), Small(2)];
    assert SubThousand(792) + [Scale(0)] == [Small(7), Hundred, And, Tens(9), Small(2), Scale(0)];
  }

  lemma Large299792458ShortGroup458_0()
    ensures ShortGroup(458, 0) == [[Small(4), Hundred, And, Tens(5), Small(8)]]
  {
    assert SubHundred(58) == [Tens(5), Small(8)];
    assert SubThousand(458) == [Small(4), Hundred, And, Tens(5), Small(8)];
  }

  lemma Large299792458ShortMagnitude()
    ensures Magnitude(299792458, true) == [[Small(2), Hundred, And, Tens(9), Small(9), Scale(1)], [Small(7), Hundred, And, Tens(9), Small(2), Scale(0)], [Small(4), Hundred, And, Tens(5), Small(8)]]
  {
    Large299792458ShortGroup299_2();
    Large299792458ShortGroup792_1();
    Large299792458ShortGroup458_0();
    assert ShortGroups(299, 2) == [[Small(2), Hundred, And, Tens(9), Small(9), Scale(1)]];
    assert ShortGroups(299792, 1) == [[Small(2), Hundred, And, Tens(9), Small(9), Scale(1)], [Small(7), Hundred, And, Tens(9), Small(2), Scale(0)]];
    assert ShortGroups(299792458, 0) == [[Small(2), Hundred, And, Tens(9), Small(9), Scale(1)], [Small(7), Hundred, And, Tens(9), Small(2), Scale(0)], [Small(4), Hundred, And, Tens(5), Small(8)]];
  }

  lemma Large299792458ShortWords4()
    ensures Texts([Small(2), Hundred, And, Tens(9), Small(9), Scale(1)]) == ["two", "hundred", "and", "ninety", "nine", "million"]
  {
    assert WordText(Small(2)) == "two";
    assert WordText(Hundred) == "hundred";
    assert WordText(And) == "and";
    assert WordText(Tens(9)) == "ninety";
    assert WordText(Small(9)) == "nine";
    assert WordText(Scale(1)) == "million";
  }

  lemma Large299792458ShortText5_4()
    ensures Unwords(["two", "hundred", "and", "ninety"]) == "two hundred and ninety"
  {
    Hundreds103254654Text12_3();
    JoinWithAppend(" ", ["two", "hundred", "and"], "ninety");
    assert ["two", "hundred", "and"] + ["ninety"] == ["two", "hundred", "and", "ninety"];
    assert "two hundred and" + " " + "ninety" == "two hundred and ninety";
  }

  lemma Large299792458ShortText6_5()
    ensures Unwords(["two", "hundred", "and", "ninety", "nine"]) == "two hundred and ninety nine"
  {
    Large299792458ShortText5_4();
    JoinWithAppend(" ", ["two", "hundred", "and", "ninety"], "nine");
    assert ["two", "hundred", "and", "ninety"] + ["nine"] == ["two", "hundred", "and", "ninety", "nine"];
    assert "two hundred and ninety" + " " + "nine" == "two hundred and ninety nine";
  }

  lemma Large299792458ShortText7_6()
    ensures Unwords(["two", "hundred", "and", "ninety", "nine", "million"]) == "two hundred and ninety nine million"
  {
    Large299792458ShortText6_5();
    JoinWithAppend(" ", ["two", "hundred", "and", "ninety", "nine"], "million");
    assert ["two", "hundred", "and", "ninety", "nine"] + ["million"] == ["two", "hundred", "and", "ninety", "nine", "million"];
    assert "two hundred and ninety nine" + " " + "million" == "two hundred and ninety nine million";
  }

  lemma Large299792458ShortGroup0Text()
    ensures Unwords(Texts([Small(2), Hundred, And, Tens(9), Small(9), Scale(1)])) == "two hundred and ninety nine million"
  {
    Large299792458ShortWords4();
    Large299792458ShortText7_6();
  }

  lemma Large299792458ShortSpoken1()
    ensures Spoken([[Small(2), Hundred, And, Tens(9), Small(9), Scale(1)]]) == "two hundred and ninety nine million"
  {
    Large299792458ShortGroup0Text();
    SpokenSingle([Small(2), Hundred, And, Tens(9), Small(9), Scale(1)]);
  }

  lemma Large299792458ShortWords10()
    ensures Texts([Small(7), Hundred, And, Tens(9), Small(2), Scale(0)]) == ["seven", "hundred", "and", "ninety", "two", "thousand"]
  {
    assert WordText(Small(7)) == "seven";
    assert WordText(Hundred) == "hundred";
    assert WordText(And) == "and";
    assert WordText(Tens(9)) == "ninety";
    assert WordText(Small(2)) == "two";
    assert WordText(Scale(0)) == "thousand";
  }

  lemma Large299792458ShortText11_2()
    ensures Unwords(["seven", "hundred"]) == "seven hundred"
  {
    JoinWithAppend(" ", ["seven"], "hundred");
    assert ["seven"] + ["hundred"] == ["seven", "hundred"];
    assert "seven" + " " + "hundred" == "seven hundred";
  }

  lemma Large299792458ShortText12_3()
    ensures Unwords(["seven", "hundred", "and"]) == "seven hundred and"
  {
    Large299792458ShortText11_2();
    JoinWithAppend(" ", ["seven", "hundred"], "and");
    assert ["seven", "hundred"] + ["and"] == ["seven", "hundred", "and"];
    assert "seven hundred" + " " + "and" == "seven hundred and";
  }

  lemma Large299792458ShortText13_4()
    ensures Unwords(["seven", "hundred", "and", "ninety"]) == "seven hundred and ninety"
  {
    Large299792458ShortText12_3();
    JoinWithAppend(" ", ["seven", "hundred", "and"], "ninety");
    assert ["seven", "hundred", "and"] + ["ninety"] == ["seven", "hundred", "and", "ninety"];
    assert "seven hundred and" + " " + "ninety" == "seven hundred and ninety";
  }

  lemma Large299792458ShortText14_5()
    ensures Unwords(["seven", "hundred", "and", "ninety", "two"]) == "seven hundred and ninety two"
  {
    Large299792458ShortText13_4();
    JoinWithAppend(" ", ["seven", "hundred", "and", "ninety"], "two");
    assert ["seven", "hundred", "and", "ninety"] + ["two"] == ["seven", "hundred", "and", "ninety", "two"];
    assert "seven hundred and ninety" + " " + "two" == "seven hundred and ninety two";
  }

  lemma Large299792458ShortText15_6()
    ensures Unwords(["seven", "hundred", "and", "ninety", "two", "thousand"]) == "seven hundred and ninety two thousand"
  {
    Large299792458ShortText14_5();
    JoinWithAppend(" ", ["seven", "hundred", "and", "ninety", "two"], "thousand");
    assert ["seven", "hundred", "and", "ninety", "two"] + ["thousand"] == ["seven", "hundred", "and", "ninety", "two", "thousand"];
    assert "seven hundred and ninety two" + " " + "thousand" == "seven hundred and ninety two thousand";
  }

  lemma Large299792458ShortGroup1Text()
    ensures Unwords(Texts([Small(7), Hundred, And, Tens(9), Small(2), Scale(0)])) == "seven hundred and ninety two thousand"
  {
    Large299792458ShortWords10();
    Large299792458ShortText15_6();
  }

  lemma Large299792458ShortSpoken2()
    ensures Spoken([[Small(2), Hundred, And, Tens(9), Small(9), Scale(1)], [Small(7), Hundred, And, Tens(9), Small(2), Scale(0)]]) == "two hundred and ninety nine million" + ", " + "seven hundred and ninety two thousand"
  {
    Large299792458ShortSpoken1();
    Large299792458ShortGroup1Text();
    SpokenSnoc([[Small(2), Hundred, And, Tens(9), Small(9), Scale(1)], [Small(7), Hundred, And, Tens(9), Small(2), Scale(0)]]);
    assert [[Small(2), Hundred, And, Tens(9), Small(9), Scale(1)], [Small(7), Hundred, And, Tens(9), Small(2), Scale(0)]][..1] == [[Small(2), Hundred, And, Tens(9), Small(9), Scale(1)]];
  }

  lemma Large299792458ShortWords18()
    ensures Texts([Small(4), Hundred, And, Tens(5), Small(8)]) == ["four", "hundred", "and", "fifty", "eight"]
  {
    assert WordText(Small(4)) == "four";
    assert WordText(Hundred) == "hundred";
    assert WordText(And) == "and";
    assert WordText(Tens(5)) == "fifty";
    assert WordText(Small(8)) == "eight";
  }

  lemma Large299792458ShortText19_5()
    ensures Unwords(["four", "hundred", "and", "fifty", "eight"]) == "four hundred and fifty eight"
  {
    Hundreds1512457Text18_4();
    JoinWithAppend(" ", ["four", "hundred", "and", "fifty"], "eight");
    assert ["four", "hundred", "and", "fifty"] + ["eight"] == ["four", "hundred", "and", "fifty", "eight"];
    assert "four hundred and fifty" + " " + "eight" == "four hundred and fifty eight";
  }

  lemma Large299792458ShortGroup2Text()
    ensures Unwords(Texts([Small(4), Hundred, And, Tens(5), Small(8)])) == "four hundred and fifty eight"
  {
    Large299792458ShortWords18();
    Large299792458ShortText19_5();
  }

  lemma Large299792458ShortSpoken3()
    ensures Spoken([[Small(2), Hundred, And, Tens(9), Small(9), Scale(1)], [Small(7), Hundred, And, Tens(9), Small(2), Scale(0)], [Small(4), Hundred, And, Tens(5), Small(8)]]) == "two hundred and ninety nine million" + ", " + "seven hundred and ninety two thousand" + ", " + "four hundred and fifty eight"
  {
    Large299792458ShortSpoken2();
    Large299792458ShortGroup2Text();
    SpokenSnoc([[Small(2), Hundred, And, Tens(9), Small(9), Scale(1)], [Small(7), Hundred, And, Tens(9), Small(2), Scale(0)], [Small(4), Hundred, And, Tens(5), Small(8)]]);
    assert [[Small(2), Hundred, And, Tens(9), Small(9), Scale(1)], [Small(7), Hundred, And, Tens(9), Small(2), Scale(0)], [Small(4), Hundred, And, Tens(5), Small(8)]][..2] == [[Small(2), Hundred, And, Tens(9), Small(9), Scale(1)], [Small(7), Hundred, And, Tens(9), Small(2), Scale(0)]];
  }

  /** Short scale (test/test_format.py:236): two hundred and ninety nine million, seven hundred and ninety two thousand, four hundred and fifty eight. */
  lemma Large299792458Short()
    ensures Reading(299792458, true, false) == [[Small(2), Hundred, And, Tens(9), Small(9), Scale(1)], [Small(7), Hundred, And, Tens(9), Small(2), Scale(0)], [Small(4), Hundred, And, Tens(5), Small(8)]]
    ensures PronounceNumber(299792458, true, false) == Spelled("two hundred and ninety nine million" + ", " + "seven hundred and ninety two thousand" + ", " + "four hundred and fifty eight")
  {
    Large299792458ShortMagnitude();
    Large299792458ShortSpoken3();
    assert Colloquial(299792458).None?;
    assert Cardinal(299792458, true) == [[Small(2), Hundred, And, Tens(9), Small(9), Scale(1)], [Small(7), Hundred, And, Tens(9), Small(2), Scale(0)], [Small(4), Hundred, And, Tens(5), Small(8)]];
  }

  lemma Large299792458LongGroup299_0()
    ensures ShortGroup(299, 0) == [[Small(2), Hundred, And, Tens(9), Small(9)]]
  {
    assert SubHundred(99) == [Tens(9), Small(9)];
    assert SubThousand(299) == [Small(2), Hundred, And, Tens(9), Small(9)];
  }

  lemma Large299792458LongChunk299_1()
    ensures LongChunk(299, 1) == [[Small(2), Hundred, And, Tens(9), Small(9), Scale(1)]]
  {
    Large299792458LongGroup299_0();
    assert ShortGroups(299, 0) == [[Small(2), Hundred, And, Tens(9), Small(9)]];
    assert Flatten([[Small(2), Hundred, And, Tens(9), Small(9)]]) == [Small(2), Hundred, And, Tens(9), Small(9)];
    assert [Small(2), Hundred, And, Tens(9), Small(9)] + [Scale(1)] == [Small(2), Hundred, And, Tens(9), Small(9), Scale(1)];
  }

  lemma Large299792458LongChunk792458_0()
    ensures LongChunk(792458, 0) == [[Small(7), Hundred, And, Tens(9), Small(2), Scale(0)], [Small(4), Hundred, And, Tens(5), Small(8)]]
  {
    Large299792458ShortGroup792_1();
    Large299792458ShortGroup458_0();
    assert ShortGroups(792, 1) == [[Small(7), Hundred, And, Tens(9), Small(2), Scale(0)]];
    assert ShortGroups(792458, 0) == [[Small(7), Hundred, And, Tens(9), Small(2), Scale(0)], [Small(4), Hundred, And, Tens(5), Small(8)]];
  }

  lemma Large299792458LongMagnitude()
    ensures Magnitude(299792458, false) == [[Small(2), Hundred, And, Tens(9), Small(9), Scale(1)], [Small(7), Hundred, And, Tens(9), Small(2), Scale(0)], [Small(4), Hundred, And, Tens(5), Small(8)]]
  {
    Large299792458LongChunk299_1();
    Large299792458LongChunk792458_0();
    assert LongGroups(299792458, 0) == [[Small(2), Hundred, And, Tens(9), Small(9), Scale(1)], [Small(7), Hundred, And, Tens(9), Small(2), Scale(0)], [Small(4), Hundred, And, Tens(5), Small(8)]];
  }

  /** Long scale (test/test_format.py:240): two hundred and ninety nine million, seven hundred and ninety two thousand, four hundred and fifty eight. */
  lemma Large299792458Long()
    ensures Reading(299792458, false, false) == [[Small(2), Hundred, And, Tens(9), Small(9), Scale(1)], [Small(7), Hundred, And, Tens(9), Small(2), Scale(0)], [Small(4), Hundred, And, Tens(5), Small(8)]]
    ensures PronounceNumber(299792458, false, false) == Spelled("two hundred and ninety nine million" + ", " + "seven hundred and ninety two thousand" + ", " + "four hundred and fifty eight")
  {
    Large299792458LongMagnitude();
    Large299792458ShortSpoken3();
    assert Colloquial(299792458).None?;
    assert Cardinal(299792458, false) == [[Small(2), Hundred, And, Tens(9), Small(9), Scale(1)], [Small(7), Hundred, And, Tens(9), Small(2), Scale(0)], [Small(4), Hundred, And, Tens(5), Small(8)]];
  }

  lemma Large100034000000299792458ShortGroup100_6()
    ensures ShortGroup(100, 6) == [[Small(1), Hundred, Scale(5)]]
  {
    assert SubThousand(100) == [Small(1), Hundred];
    assert SubThousand(100) + [Scale(5)] == [Small(1), Hundred, Scale(5)];
  }

  lemma Large100034000000299792458ShortGroup34_5()
    ensures ShortGroup(34, 5) == [[Tens(3), Small(4), Scale(4)]]
  {
    assert SubThousand(34) == [Tens(3), Small(4)];
    assert SubThousand(34) + [Scale(4)] == [Tens(3), Small(4), Scale(4)];
  }

  lemma Large100034000000299792458ShortMagnitude()
    ensures Magnitude(100034000000299792458, true) == [[Small(1), Hundred, Scale(5)], [Tens(3), Small(4), Scale(4)], [Small(2), Hundred, And, Tens(9), Small(9), Scale(1)], [Small(7), Hundred, And, Tens(9), Small(2), Scale(0)], [Small(4), Hundred, And, Tens(5), Small(8)]]
  {
    Large100034000000299792458ShortGroup100_6();
    Large100034000000299792458ShortGroup34_5();
    Large299792458ShortGroup299_2();
    Large299792458ShortGroup792_1();
    Large299792458ShortGroup458_0();
    assert ShortGroups(100, 6) == [[Small(1), Hundred, Scale(5)]];
    assert ShortGroups(100034, 5) == [[Small(1), Hundred, Scale(5)], [Tens(3), Small(4), Scale(4)]];
    assert ShortGroups(100034000, 4) == [[Small(1), Hundred, Scale(5)], [Tens(3), Small(4), Scale(4)]];
    assert ShortGroups(100034000000, 3) == [[Small(1), Hundred, Scale(5)], [Tens(3), Small(4), Scale(4)]];
    assert ShortGroups(100034000000299, 2) == [[Small(1), Hundred, Scale(5)], [Tens(3), Small(4), Scale(4)], [Small(2), Hundred, And, Tens(9), Small(9), Scale(1)]];
    assert ShortGroups(100034000000299792, 1) == [[Small(1), Hundred, Scale(5)], [Tens(3), Small(4), Scale(4)], [Small(2), Hundred, And, Tens(9), Small(9), Scale(1)], [Small(7), Hundred, And, Tens(9), Small(2), Scale(0)]];
    assert ShortGroups(100034000000299792458, 0) == [[Small(1), Hundred, Scale(5)], [Tens(3), Small(4), Scale(4)], [Small(2), Hundred, And, Tens(9), Small(9), Scale(1)], [Small(7), Hundred, And, Tens(9), Small(2), Scale(0)], [Small(4), Hundred, And, Tens(5), Small(8)]];
  }

  lemma Large100034000000299792458ShortWords3()
    ensures Texts([Small(1), Hundred, Scale(5)]) == ["one", "hundred", "quintillion"]
  {
    assert WordText(Small(1)) == "one";
    assert WordText(Hundred) == "hundred";
    assert WordText(Scale(5)) == "quintillion";
  }

  lemma Large100034000000299792458ShortText4()
    ensures Unwords(["one", "hundred", "quintillion"]) == "one hundred quintillion"
  {
  }

  lemma Large100034000000299792458ShortGroup0Text()
    ensures Unwords(Texts([Small(1), Hundred, Scale(5)])) == "one hundred quintillion"
  {
    Large100034000000299792458ShortWords3();
    Large100034000000299792458ShortText4();
  }

  lemma Large100034000000299792458ShortSpoken1()
    ensures Spoken([[Small(1), Hundred, Scale(5)]]) == "one hundred quintillion"
  {
    Large100034000000299792458ShortGroup0Text();
    SpokenSingle([Small(1), Hundred, Scale(5)]);
  }

  lemma Large100034000000299792458ShortWords7()
    ensures Texts([Tens(3), Small(4), Scale(4)]) == ["thirty", "four", "quadrillion"]
  {
    assert WordText(Tens(3)) == "thirty";
    assert WordText(Small(4)) == "four";
    assert WordText(Scale(4)) == "quadrillion";
  }

  lemma Large100034000000299792458ShortText8()
    ensures Unwords(["thirty", "four", "quadrillion"]) == "thirty four quadrillion"
  {
  }

  lemma Large100034000000299792458ShortGroup1Text()
    ensures Unwords(Texts([Tens(3), Small(4), Scale(4)])) == "thirty four quadrillion"
  {
    Large100034000000299792458ShortWords7();
    Large100034000000299792458ShortText8();
  }

  lemma Large100034000000299792458ShortSpoken2()
    ensures Spoken([[Small(1), Hundred, Scale(5)], [Tens(3), Small(4), Scale(4)]]) == "one hundred quintillion" + ", " + "thirty four quadrillion"
  {
    Large100034000000299792458ShortSpoken1();
    Large100034000000299792458ShortGroup1Text();
    SpokenSnoc([[Small(1), Hundred, Scale(5)], [Tens(3), Small(4), Scale(4)]]);
    assert [[Small(1), Hundred, Scale(5)], [Tens(3), Small(4), Scale(4)]][..1] == [[Small(1), Hundred, Scale(5)]];
  }

  lemma Large100034000000299792458ShortSpoken3()
    ensures Spoken([[Small(1), Hundred, Scale(5)], [Tens(3), Small(4), Scale(4)], [Small(2), Hundred, And, Tens(9), Small(9), Scale(1)]]) == "one hundred quintillion" + ", " + "thirty four quadrillion" + ", " + "two hundred and ninety nine million"
  {
    Large100034000000299792458ShortSpoken2();
    Large299792458ShortGroup0Text();
    SpokenSnoc([[Small(1), Hundred, Scale(5)], [Tens(3), Small(4), Scale(4)], [Small(2), Hundred, And, Tens(9), Small(9), Scale(1)]]);
    assert [[Small(1), Hundred, Scale(5)], [Tens(3), Small(4), Scale(4)], [Small(2), Hundred, And, Tens(9), Small(9), Scale(1)]][..2] == [[Small(1), Hundred, Scale(5)], [Tens(3), Small(4), Scale(4)]];
  }

  lemma Large100034000000299792458ShortSpoken4()
    ensures Spoken([[Small(1), Hundred, Scale(5)], [Tens(3), Small(4), Scale(4)], [Small(2), Hundred, And, Tens(9), Small(9), Scale(1)], [Small(7), Hundred, And, Tens(9), Small(2), Scale(0)]]) == "one hundred quintillion" + ", " + "thirty four quadrillion" + ", " + "two hundred and ninety nine million" + ", " + "seven hundred and ninety two thousand"
  {
    Large100034000000299792458ShortSpoken3();
    Large299792458ShortGroup1Text();
    SpokenSnoc([[Small(1), Hundred, Scale(5)], [Tens(3), Small(4), Scale(4)], [Small(2), Hundred, And, Tens(9), Small(9), Scale(1)], [Small(7), Hundred, And, Tens(9), Small(2), Scale(0)]]);
    assert [[Small(1), Hundred, Scale(5)], [Tens(3), Small(4), Scale(4)], [Small(2), Hundred, And, Tens(9), Small(9), Scale(1)], [Small(7), Hundred, And, Tens(9), Small(2), Scale(0)]][..3] == [[Small(1), Hundred, Scale(5)], [Tens(3), Small(4), Scale(4)], [Small(2), Hundred, And, Tens(9), Small(9), Scale(1)]];
  }

  lemma Large100034000000299792458ShortSpoken5()
    ensures Spoken([[Small(1), Hundred, Scale(5)], [Tens(3), Small(4), Scale(4)], [Small(2), Hundred, And, Tens(9), Small(9), Scale(1)], [Small(7), Hundred, And, Tens(9), Small(2), Scale(0)], [Small(4), Hundred, And, Tens(5), Small(8)]]) == "one hundred quintillion" + ", " + "thirty four quadrillion" + ", " + "two hundred and ninety nine million" + ", " + "seven hundred and ninety two thousand" + ", " + "four hundred and fifty eight"
  {
    Large100034000000299792458ShortSpoken4();
    Large299792458ShortGroup2Text();
    SpokenSnoc([[Small(1), Hundred, Scale(5)], [Tens(3), Small(4), Scale(4)], [Small(2), Hundred, And, Tens(9), Small(9), Scale(1)], [Small(7), Hundred, And, Tens(9), Small(2), Scale(0)], [Small(4), Hundred, And, Tens(5), Small(8)]]);
    assert [[Small(1), Hundred, Scale(5)], [Tens(3), Small(4), Scale(4)], [Small(2), Hundred, And, Tens(9), Small(9), Scale(1)], [Small(7), Hundred, And, Tens(9), Small(2), Scale(0)], [Small(4), Hundred, And, Tens(5), Small(8)]][..4] == [[Small(1), Hundred, Scale(5)], [Tens(3), Small(4), Scale(4)], [Small(2), Hundred, And, Tens(9), Small(9), Scale(1)], [Small(7), Hundred, And, Tens(9), Small(2), Scale(0)]];
  }

  /** Short scale (test/test_format.py:244): one hundred quintillion, thirty four quadrillion, two hundred and ninety nine million, seven hundred and ninety two thousand, four hundred and fifty eight. */
  lemma Large100034000000299792458Short()
    ensures Reading(100034000000299792458, true, false) == [[Small(1), Hundred, Scale(5)], [Tens(3), Small(4), Scale(4)], [Small(2), Hundred, And, Tens(9), Small(9), Scale(1)], [Small(7), Hundred, And, Tens(9), Small(2), Scale(0)], [Small(4), Hundred, And, Tens(5), Small(8)]]
    ensures PronounceNumber(100034000000299792458, true, false) == Spelled("one hundred quintillion" + ", " + "thirty four quadrillion" + ", " + "two hundred and ninety nine million" + ", " + "seven hundred and ninety two thousand" + ", " + "four hundred and fifty eight")
  {
    Large100034000000299792458ShortMagnitude();
    Large100034000000299792458ShortSpoken5();
    assert Colloquial(100034000000299792458).None?;
    assert Cardinal(100034000000299792458, true) == [[Small(1), Hundred, Scale(5)], [Tens(3), Small(4), Scale(4)], [Small(2), Hundred, And, Tens(9), Small(9), Scale(1)], [Small(7), Hundred, And, Tens(9), Small(2), Scale(0)], [Small(4), Hundred, And, Tens(5), Small(8)]];
  }

  lemma Large100034000000299792458LongChunk100_3()
    ensures LongChunk(100, 3) == [[Small(1), Hundred, Scale(3)]]
  {
    Hundreds100Group100_0();
    assert ShortGroups(100, 0) == [[Small(1), Hundred]];
    assert Flatten([[Small(1), Hundred]]) == [Small(1), Hundred];
    assert [Small(1), Hundred] + [Scale(3)] == [Small(1), Hundred, Scale(3)];
  }

  lemma Large100034000000299792458LongGroup34_1()
    ensures ShortGroup(34, 1) == [[Tens(3), Small(4), Scale(0)]]
  {
    assert SubThousand(34) == [Tens(3), Small(4)];
    assert SubThousand(34) + [Scale(0)] == [Tens(3), Small(4), Scale(0)];
  }

  lemma Large100034000000299792458LongChunk34000_2()
    ensures LongChunk(34000, 2) == [[Tens(3), Small(4), Scale(0), Scale(2)]]
  {
    Large100034000000299792458LongGroup34_1();
    assert ShortGroups(34, 1) == [[Tens(3), Small(4), Scale(0)]];
    assert ShortGroups(34000, 0) == [[Tens(3), Small(4), Scale(0)]];
    assert Flatten([[Tens(3), Small(4), Scale(0)]]) == [Tens(3), Small(4), Scale(0)];
    assert [Tens(3), Small(4), Scale(0)] + [Scale(2)] == [Tens(3), Small(4), Scale(0), Scale(2)];
  }

  lemma Large100034000000299792458LongMagnitude()
    ensures Magnitude(100034000000299792458, false) == [[Small(1), Hundred, Scale(3)], [Tens(3), Small(4), Scale(0), Scale(2)], [Small(2), Hundred, And, Tens(9), Small(9), Scale(1)], [Small(7), Hundred, And, Tens(9), Small(2), Scale(0)], [Small(4), Hundred, And, Tens(5), Small(8)]]
  {
    Large100034000000299792458LongChunk100_3();
    Large100034000000299792458LongChunk34000_2();
    Large299792458LongChunk299_1();
    Large299792458LongChunk792458_0();
    assert LongGroups(100034000, 2) == [[Small(1), Hundred, Scale(3)], [Tens(3), Small(4), Scale(0), Scale(2)]];
    assert LongGroups(100034000000299, 1) == [[Small(1), Hundred, Scale(3)], [Tens(3), Small(4), Scale(0), Scale(2)], [Small(2), Hundred, And, Tens(9), Small(9), Scale(1)]];
    assert LongGroups(100034000000299792458, 0) == [[Small(1), Hundred, Scale(3)], [Tens(3), Small(4), Scale(0), Scale(2)], [Small(2), Hundred, And, Tens(9), Small(9), Scale(1)], [Small(7), Hundred, And, Tens(9), Small(2), Scale(0)], [Small(4), Hundred, And, Tens(5), Small(8)]];
  }

  lemma Large100034000000299792458LongWords4()
    ensures Texts([Small(1), Hundred, Scale(3)]) == ["one", "hundred", "trillion"]
  {
    assert WordText(Small(1)) == "one";
    assert WordText(Hundred) == "hundred";
    assert WordText(Scale(3)) == "trillion";
  }

  lemma Large100034000000299792458LongText5()
    ensures Unwords(["one", "hundred", "trillion"]) == "one hundred trillion"
  {
  }

  lemma Large100034000000299792458LongGroup0Text()
    ensures Unwords(Texts([Small(1), Hundred, Scale(3)])) == "one hundred trillion"
  {
    Large100034000000299792458LongWords4();
    Large100034000000299792458LongText5();
  }

  lemma Large100034000000299792458LongSpoken1()
    ensures Spoken([[Small(1), Hundred, Scale(3)]]) == "one hundred trillion"
  {
    Large100034000000299792458LongGroup0Text();
    SpokenSingle([Small(1), Hundred, Scale(3)]);
  }

  lemma Large100034000000299792458LongWords8()
    ensures Texts([Tens(3), Small(4), Scale(0), Scale(2)]) == ["thirty", "four", "thousand", "billion"]
  {
    assert WordText(Tens(3)) == "thirty";
    assert WordText(Small(4)) == "four";
    assert WordText(Scale(0)) == "thousand";
    assert WordText(Scale(2)) == "billion";
  }

  lemma Large100034000000299792458LongText9_2()
    ensures Unwords(["thirty", "four"]) == "thirty four"
  {
    JoinWithAppend(" ", ["thirty"], "four");
    assert ["thirty"] + ["four"] == ["thirty", "four"];
    assert "thirty" + " " + "four" == "thirty four";
  }

  lemma Large100034000000299792458LongText10_3()
    ensures Unwords(["thirty", "four", "thousand"]) == "thirty four thousand"
  {
    Large100034000000299792458LongText9_2();
    JoinWithAppend(" ", ["thirty", "four"], "thousand");
    assert ["thirty", "four"] + ["thousand"] == ["thirty", "four", "thousand"];
    assert "thirty four" + " " + "thousand" == "thirty four thousand";
  }

  lemma Large100034000000299792458LongText11_4()
    ensures Unwords(["thirty", "four", "thousand", "billion"]) == "thirty four thousand billion"
  {
    Large100034000000299792458LongText10_3();
    JoinWithAppend(" ", ["thirty", "four", "thousand"], "billion");
    assert ["thirty", "four", "thousand"] + ["billion"] == ["thirty", "four", "thousand", "billion"];
    assert "thirty four thousand" + " " + "billion" == "thirty four thousand billion";
  }

  lemma Large100034000000299792458LongGroup1Text()
    ensures Unwords(Texts([Tens(3), Small(4), Scale(0), Scale(2)])) == "thirty four thousand billion"
  {
    Large100034000000299792458LongWords8();
    Large100034000000299792458LongText11_4();
  }

  lemma Large100034000000299792458LongSpoken2()
    ensures Spoken([[Small(1), Hundred, Scale(3)], [Tens(3), Small(4), Scale(0), Scale(2)]]) == "one hundred trillion" + ", " + "thirty four thousand billion"
  {
    Large100034000000299792458LongSpoken1();
    Large100034000000299792458LongGroup1Text();
    SpokenSnoc([[Small(1), Hundred, Scale(3)], [Tens(3), Small(4), Scale(0), Scale(2)]]);
    assert [[Small(1), Hundred, Scale(3)], [Tens(3), Small(4), Scale(0), Scale(2)]][..1] == [[Small(1), Hundred, Scale(3)]];
  }

  lemma Large100034000000299792458LongSpoken3()
    ensures Spoken([[Small(1), Hundred, Scale(3)], [Tens(3), Small(4), Scale(0), Scale(2)], [Small(2), Hundred, And, Tens(9), Small(9), Scale(1)]]) == "one hundred trillion" + ", " + "thirty four thousand billion" + ", " + "two hundred and ninety nine million"
  {
    Large100034000000299792458LongSpoken2();
    Large299792458ShortGroup0Text();
    SpokenSnoc([[Small(1), Hundred, Scale(3)], [Tens(3), Small(4), Scale(0), Scale(2)], [Small(2), Hundred, And, Tens(9), Small(9), Scale(1)]]);
    assert [[Small(1), Hundred, Scale(3)], [Tens(3), Small(4), Scale(0), Scale(2)], [Small(2), Hundred, And, Tens(9), Small(9), Scale(1)]][..2] == [[Small(1), Hundred, Scale(3)], [Tens(3), Small(4), Scale(0), Scale(2)]];
  }

  lemma Large100034000000299792458LongSpoken4()
    ensures Spoken([[Small(1), Hundred, Scale(3)], [Tens(3), Small(4), Scale(0), Scale(2)], [Small(2), Hundred, And, Tens(9), Small(9), Scale(1)], [Small(7), Hundred, And, Tens(9), Small(2), Scale(0)]]) == "one hundred trillion" + ", " + "thirty four thousand billion" + ", " + "two hundred and ninety nine million" + ", " + "seven hundred and ninety two thousand"
  {
    Large100034000000299792458LongSpoken3();
    Large299792458ShortGroup1Text();
    SpokenSnoc([[Small(1), Hundred, Scale(3)], [Tens(3), Small(4), Scale(0), Scale(2)], [Small(2), Hundred, And, Tens(9), Small(9), Scale(1)], [Small(7), Hundred, And, Tens(9), Small(2), Scale(0)]]);
    assert [[Small(1), Hundred, Scale(3)], [Tens(3), Small(4), Scale(0), Scale(2)], [Small(2), Hundred, And, Tens(9), Small(9), Scale(1)], [Small(7), Hundred, And, Tens(9), Small(2), Scale(0)]][..3] == [[Small(1), Hundred, Scale(3)], [Tens(3), Small(4), Scale(0), Scale(2)], [Small(2), Hundred, And, Tens(9), Small(9), Scale(1)]];
  }

  lemma Large100034000000299792458LongSpoken5()
    ensures Spoken([[Small(1), Hundred, Scale(3)], [Tens(3), Small(4), Scale(0), Scale(2)], [Small(2), Hundred, And, Tens(9), Small(9), Scale(1)], [Small(7), Hundred, And, Tens(9), Small(2), Scale(0)], [Small(4), Hundred, And, Tens(5), Small(8)]]) == "one hundred trillion" + ", " + "thirty four thousand billion" + ", " + "two hundred and ninety nine million" + ", " + "seven hundred and ninety two thousand" + ", " + "four hundred and fifty eight"
  {
    Large100034000000299792458LongSpoken4();
    Large299792458ShortGroup2Text();
    SpokenSnoc([[Small(1), Hundred, Scale(3)], [Tens(3), Small(4), Scale(0), Scale(2)], [Small(2), Hundred, And, Tens(9), Small(9), Scale(1)], [Small(7), Hundred, And, Tens(9), Small(2), Scale(0)], [Small(4), Hundred, And, Tens(5), Small(8)]]);
    assert [[Small(1), Hundred, Scale(3)], [Tens(3), Small(4), Scale(0), Scale(2)], [Small(2), Hundred, And, Tens(9), Small(9), Scale(1)], [Small(7), Hundred, And, Tens(9), Small(2), Scale(0)], [Small(4), Hundred, And, Tens(5), Small(8)]][..4] == [[Small(1), Hundred, Scale(3)], [Tens(3), Small(4), Scale(0), Scale(2)], [Small(2), Hundred, And, Tens(9), Small(9), Scale(1)], [Small(7), Hundred, And, Tens(9), Small(2), Scale(0)]];
  }

  /** Long scale (test/test_format.py:249): one hundred trillion, thirty four thousand billion, two hundred and ninety nine million, seven hundred and ninety two thousand, four hundred and fifty eight. */
  lemma Large100034000000299792458Long()
    ensures Reading(100034000000299792458, false, false) == [[Small(1), Hundred, Scale(3)], [Tens(3), Small(4), Scale(0), Scale(2)], [Small(2), Hundred, And, Tens(9), Small(9), Scale(1)], [Small(7), Hundred, And, Tens(9), Small(2), Scale(0)], [Small(4), Hundred, And, Tens(5), Small(8)]]
    ensures PronounceNumber(100034000000299792458, false, false) == Spelled("one hundred trillion" + ", " + "thirty four thousand billion" + ", " + "two hundred and ninety nine million" + ", " + "seven hundred and ninety two thousand" + ", " + "four hundred and fifty eight")
  {
    Large100034000000299792458LongMagnitude();
    Large100034000000299792458LongSpoken5();
    assert Colloquial(100034000000299792458).None?;
    assert Cardinal(100034000000299792458, false) == [[Small(1), Hundred, Scale(3)], [Tens(3), Small(4), Scale(0), Scale(2)], [Small(2), Hundred, And, Tens(9), Small(9), Scale(1)], [Small(7), Hundred, And, Tens(9), Small(2), Scale(0)], [Small(4), Hundred, And, Tens(5), Small(8)]];
  }

  lemma Large10000000000ShortGroup10_3()
    ensures ShortGroup(10, 3) == [[Small(10), Scale(2)]]
  {
    assert SubThousand(10) == [Small(10)];
    assert SubThousand(10) + [Scale(2)] == [Small(10), Scale(2)];
  }

  lemma Large10000000000ShortMagnitude()
    ensures Magnitude(10000000000, true) == [[Small(10), Scale(2)]]
  {
    Large10000000000ShortGroup10_3();
    assert ShortGroups(10, 3) == [[Small(10), Scale(2)]];
    assert ShortGroups(10000, 2) == [[Small(10), Scale(2)]];
    assert ShortGroups(10000000, 1) == [[Small(10), Scale(2)]];
    assert ShortGroups(10000000000, 0) == [[Small(10), Scale(2)]];
  }

  lemma Large10000000000ShortWords2()
    ensures Texts([Small(10), Scale(2)]) == ["ten", "billion"]
  {
    assert WordText(Small(10)) == "ten";
    assert WordText(Scale(2)) == "billion";
  }

  lemma Large10000000000ShortText3()
    ensures Unwords(["ten", "billion"]) == "ten billion"
  {
  }

  /** Short scale (test/test_format.py:254): ten billion. */
  lemma Large10000000000Short()
    ensures Reading(10000000000, true, false) == [[Small(10), Scale(2)]]
    ensures PronounceNumber(10000000000, true, false) == Spelled("ten billion")
  {
    Large10000000000ShortMagnitude();
    Large10000000000ShortWords2();
    Large10000000000ShortText3();
    assert Colloquial(10000000000).None?;
    assert Cardinal(10000000000, true) == [[Small(10), Scale(2)]];
    SpokenSingle([Small(10), Scale(2)]);
  }

  lemma Large1000000000000ShortGroup1_4()
    ensures ShortGroup(1, 4) == [[Small(1), Scale(3)]]
  {
    assert SubThousand(1) == [Small(1)];
    assert SubThousand(1) + [Scale(3)] == [Small(1), Scale(3)];
  }

  lemma Large1000000000000ShortMagnitude()
    ensures Magnitude(1000000000000, true) == [[Small(1), Scale(3)]]
  {
    Large1000000000000ShortGroup1_4();
    assert ShortGroups(1, 4) == [[Small(1), Scale(3)]];
    assert ShortGroups(1000, 3) == [[Small(1), Scale(3)]];
    assert ShortGroups(1000000, 2) == [[Small(1), Scale(3)]];
    assert ShortGroups(1000000000, 1) == [[Small(1), Scale(3)]];
    assert ShortGroups(1000000000000, 0) == [[Small(1), Scale(3)]];
  }

  lemma Large1000000000000ShortWords2()
    ensures Texts([Small(1), Scale(3)]) == ["one", "trillion"]
  {
    assert WordText(Small(1)) == "one";
    assert WordText(Scale(3)) == "trillion";
  }

  lemma Large1000000000000ShortText3()
    ensures Unwords(["one", "trillion"]) == "one trillion"
  {
  }

  /** Short scale (test/test_format.py:257): one trillion. */
  lemma Large1000000000000Short()
    ensures Reading(1000000000000, true, false) == [[Small(1), Scale(3)]]
    ensures PronounceNumber(1000000000000, true, false) == Spelled("one trillion")
  {
    Large1000000000000ShortMagnitude();
    Large1000000000000ShortWords2();
    Large1000000000000ShortText3();
    assert Colloquial(1000000000000).None?;
    assert Cardinal(1000000000000, true) == [[Small(1), Scale(3)]];
    SpokenSingle([Small(1), Scale(3)]);
  }

  lemma Large1000001ShortMagnitude()
    ensures Magnitude(1000001, true) == [[Small(1), Scale(1)], [Small(1)]]
  {
    Hundreds1512457Group1_2();
    Int1Group1_0();
    assert ShortGroups(1, 2) == [[Small(1), Scale(1)]];
    assert ShortGroups(1000, 1) == [[Small(1), Scale(1)]];
    assert ShortGroups(1000001, 0) == [[Small(1), Scale(1)], [Small(1)]];
  }

  lemma Large1000001ShortGroup1Text()
    ensures Unwords(Texts([Small(1)])) == "one"
  {
    Int1Words2();
    Int1Text3();
  }

  lemma Large1000001ShortSpoken2()
    ensures Spoken([[Small(1), Scale(1)], [Small(1)]]) == "one million" + ", " + "one"
  {
    Hundreds1512457Spoken1();
    Large1000001ShortGroup1Text();
    SpokenSnoc([[Small(1), Scale(1)], [Small(1)]]);
    assert [[Small(1), Scale(1)], [Small(1)]][..1] == [[Small(1), Scale(1)]];
  }

  lemma Large1000001ShortJoined()
    ensures "one million" + ", " + "one" == "one million, one"
  {
  }

  /** Short scale (test/test_format.py:261): one million, one. */
  lemma Large1000001Short()
    ensures Reading(1000001, true, false) == [[Small(1), Scale(1)], [Small(1)]]
    ensures PronounceNumber(1000001, true, false) == Spelled("one million, one")
  {
    Large1000001ShortMagnitude();
    Large1000001ShortSpoken2();
    Large1000001ShortJoined();
    assert Colloquial(1000001).None?;
    assert Cardinal(1000001, true) == [[Small(1), Scale(1)], [Small(1)]];
  }

  lemma Large95505896639631893ShortGroup95_5()
    ensures ShortGroup(95, 5) == [[Tens(9), Small(5), Scale(4)]]
  {
    assert SubThousand(95) == [Tens(9), Small(5)];
    assert SubThousand(95) + [Scale(4)] == [Tens(9), Small(5), Scale(4)];
  }

  lemma Large95505896639631893ShortGroup505_4()
    ensures ShortGroup(505, 4) == [[Small(5), Hundred, And, Small(5), Scale(3)]]
  {
    assert SubHundred(5) == [Small(5)];
    assert SubThousand(505) == [Small(5), Hundred, And, Small(5)];
    assert SubThousand(505) + [Scale(3)] == [Small(5), Hundred, And, Small(5), Scale(3)];
  }

  lemma Large95505896639631893ShortGroup896_3()
    ensures ShortGroup(896, 3) == [[Small(8), Hundred, And, Tens(9), Small(6), Scale(2)]]
  {
    assert SubHundred(96) == [Tens(9), Small(6)];
    assert SubThousand(896) == [Small(8), Hundred, And, Tens(9), Small(6)];
    assert SubThousand(896) + [Scale(2)] == [Small(8), Hundred, And, Tens(9), Small(6), Scale(2)];
  }

  lemma Large95505896639631893ShortGroup639_2()
    ensures ShortGroup(639, 2) == [[Small(6), Hundred, And, Tens(3), Small(9), Scale(1)]]
  {
    assert SubHundred(39) == [Tens(3), Small(9)];
    assert SubThousand(639) == [Small(6), Hundred, And, Tens(3), Small(9)];
    assert SubThousand(639) + [Scale(1)] == [Small(6), Hundred, And, Tens(3), Small(9), Scale(1)];
  }

  lemma Large95505896639631893ShortGroup631_1()
    ensures ShortGroup(631, 1) == [[Small(6), Hundred, And, Tens(3), Small(1), Scale(0)]]
  {
    assert SubHundred(31) == [Tens(3), Small(1)];
    assert SubThousand(631) == [Small(6), Hundred, And, Tens(3), Small(1)];
    assert SubThousand(631) + [Scale(0)] == [Small(6), Hundred, And, Tens(3), Small(1), Scale(0)];
  }

  lemma Large95505896639631893ShortGroup893_0()
    ensures ShortGroup(893, 0) == [[Small(8), Hundred, And, Tens(9), Small(3)]]
  {
    assert SubHundred(93) == [Tens(9), Small(3)];
    assert SubThousand(893) == [Small(8), Hundred, And, Tens(9), Small(3)];
  }

  lemma Large95505896639631893ShortMagnitude()
    ensures Magnitude(95505896639631893, true) == [[Tens(9), Small(5), Scale(4)], [Small(5), Hundred, And, Small(5), Scale(3)], [Small(8), Hundred, And, Tens(9), Small(6), Scale(2)], [Small(6), Hundred, And, Tens(3), Small(9), Scale(1)], [Small(6), Hundred, And, Tens(3), Small(1), Scale(0)], [Small(8), Hundred, And, Tens(9), Small(3)]]
  {
    Large95505896639631893ShortGroup95_5();
    Large95505896639631893ShortGroup505_4();
    Large95505896639631893ShortGroup896_3();
    Large95505896639631893ShortGroup639_2();
    Large95505896639631893ShortGroup631_1();
    Large95505896639631893ShortGroup893_0();
    assert ShortGroups(95, 5) == [[Tens(9), Small(5), Scale(4)]];
    assert ShortGroups(95505, 4) == [[Tens(9), Small(5), Scale(4)], [Small(5), Hundred, And, Small(5), Scale(3)]];
    assert ShortGroups(95505896, 3) == [[Tens(9), Small(5), Scale(4)], [Small(5), Hundred, And, Small(5), Scale(3)], [Small(8), Hundred, And, Tens(9), Small(6), Scale(2)]];
    assert ShortGroups(95505896639, 2) == [[Tens(9), Small(5), Scale(4)], [Small(5), Hundred, And, Small(5), Scale(3)], [Small(8), Hundred, And, Tens(9), Small(6), Scale(2)], [Small(6), Hundred, And, Tens(3), Small(9), Scale(1)]];
    assert ShortGroups(95505896639631, 1) == [[Tens(9), Small(5), Scale(4)], [Small(5), Hundred, And, Small(5), Scale(3)], [Small(8), Hundred, And, Tens(9), Small(6), Scale(2)], [Small(6), Hundred, And, Tens(3), Small(9), Scale(1)], [Small(6), Hundred, And, Tens(3), Small(1), Scale(0)]];
    assert ShortGroups(95505896639631893, 0) == [[Tens(9), Small(5), Scale(4)], [Small(5), Hundred, And, Small(5), Scale(3)], [Small(8), Hundred, And, Tens(9), Small(6), Scale(2)], [Small(6), Hundred, And, Tens(3), Small(9), Scale(1)], [Small(6), Hundred, And, Tens(3), Small(1), Scale(0)], [Small(8), Hundred, And, Tens(9), Small(3)]];
  }

  lemma Large95505896639631893ShortWords7()
    ensures Texts([Tens(9), Small(5), Scale(4)]) == ["ninety", "five", "quadrillion"]
  {
    assert WordText(Tens(9)) == "ninety";
    assert WordText(Small(5)) == "five";
    assert WordText(Scale(4)) == "quadrillion";
  }

  lemma Large95505896639631893ShortText8()
    ensures Unwords(["ninety", "five", "quadrillion"]) == "ninety five quadrillion"
  {
  }

  lemma Large95505896639631893ShortGroup0Text()
    ensures Unwords(Texts([Tens(9), Small(5), Scale(4)])) == "ninety five quadrillion"
  {
    Large95505896639631893ShortWords7();
    Large95505896639631893ShortText8();
  }

  lemma Large95505896639631893ShortSpoken1()
    ensures Spoken([[Tens(9), Small(5), Scale(4)]]) == "ninety five quadrillion"
  {
    Large95505896639631893ShortGroup0Text();
    SpokenSingle([Tens(9), Small(5), Scale(4)]);
  }

  lemma Large95505896639631893ShortWords11()
    ensures Texts([Small(5), Hundred, And, Small(5), Scale(3)]) == ["five", "hundred", "and", "five", "trillion"]
  {
    assert WordText(Small(5)) == "five";
    assert WordText(Hundred) == "hundred";
    assert WordText(And) == "and";
    assert WordText(Small(5)) == "five";
    assert WordText(Scale(3)) == "trillion";
  }

  lemma Large95505896639631893ShortText12_4()
    ensures Unwords(["five", "hundred", "and", "five"]) == "five hundred and five"
  {
    Hundreds1512457Text10_3();
    JoinWithAppend(" ", ["five", "hundred", "and"], "five");
    assert ["five", "hundred", "and"] + ["five"] == ["five", "hundred", "and", "five"];
    assert "five hundred and" + " " + "five" == "five hundred and five";
  }

  lemma Large95505896639631893ShortText13_5()
    ensures Unwords(["five", "hundred", "and", "five", "trillion"]) == "five hundred and five trillion"
  {
    Large95505896639631893ShortText12_4();
    JoinWithAppend(" ", ["five", "hundred", "and", "five"], "trillion");
    assert ["five", "hundred", "and", "five"] + ["trillion"] == ["five", "hundred", "and", "five", "trillion"];
    assert "five hundred and five" + " " + "trillion" == "five hundred and five trillion";
  }

  lemma Large95505896639631893ShortGroup1Text()
    ensures Unwords(Texts([Small(5), Hundred, And, Small(5), Scale(3)])) == "five hundred and five trillion"
  {
    Large95505896639631893ShortWords11();
    Large95505896639631893ShortText13_5();
  }

  lemma Large95505896639631893ShortSpoken2()
    ensures Spoken([[Tens(9), Small(5), Scale(4)], [Small(5), Hundred, And, Small(5), Scale(3)]]) == "ninety five quadrillion" + ", " + "five hundred and five trillion"
  {
    Large95505896639631893ShortSpoken1();
    Large95505896639631893ShortGroup1Text();
    SpokenSnoc([[Tens(9), Small(5), Scale(4)], [Small(5), Hundred, And, Small(5), Scale(3)]]);
    assert [[Tens(9), Small(5), Scale(4)], [Small(5), Hundred, And, Small(5), Scale(3)]][..1] == [[Tens(9), Small(5), Scale(4)]];
  }

  lemma Large95505896639631893ShortWords16()
    ensures Texts([Small(8), Hundred, And, Tens(9), Small(6), Scale(2)]) == ["eight", "hundred", "and", "ninety", "six", "billion"]
  {
    assert WordText(Small(8)) == "eight";
    assert WordText(Hundred) == "hundred";
    assert WordText(And) == "and";
    assert WordText(Tens(9)) == "ninety";
    assert WordText(Small(6)) == "six";
    assert WordText(Scale(2)) == "billion";
  }

  lemma Large95505896639631893ShortText17_2()
    ensures Unwords(["eight", "hundred"]) == "eight hundred"
  {
    JoinWithAppend(" ", ["eight"], "hundred");
    assert ["eight"] + ["hundred"] == ["eight", "hundred"];
    assert "eight" + " " + "hundred" == "eight hundred";
  }

  lemma Large95505896639631893ShortText18_3()
    ensures Unwords(["eight", "hundred", "and"]) == "eight hundred and"
  {
    Large95505896639631893ShortText17_2();
    JoinWithAppend(" ", ["eight", "hundred"], "and");
    assert ["eight", "hundred"] + ["and"] == ["eight", "hundred", "and"];
    assert "eight hundred" + " " + "and" == "eight hundred and";
  }

  lemma Large95505896639631893ShortText19_4()
    ensures Unwords(["eight", "hundred", "and", "ninety"]) == "eight hundred and ninety"
  {
    Large95505896639631893ShortText18_3();
    JoinWithAppend(" ", ["eight", "hundred", "and"], "ninety");
    assert ["eight", "hundred", "and"] + ["ninety"] == ["eight", "hundred", "and", "ninety"];
    assert "eight hundred and" + " " + "ninety" == "eight hundred and ninety";
  }

  lemma Large95505896639631893ShortText20_5()
    ensures Unwords(["eight", "hundred", "and", "ninety", "six"]) == "eight hundred and ninety six"
  {
    Large95505896639631893ShortText19_4();
    JoinWithAppend(" ", ["eight", "hundred", "and", "ninety"], "six");
    assert ["eight", "hundred", "and", "ninety"] + ["six"] == ["eight", "hundred", "and", "ninety", "six"];
    assert "eight hundred and ninety" + " " + "six" == "eight hundred and ninety six";
  }

  lemma Large95505896639631893ShortText21_6()
    ensures Unwords(["eight", "hundred", "and", "ninety", "six", "billion"]) == "eight hundred and ninety six billion"
  {
    Large95505896639631893ShortText20_5();
    JoinWithAppend(" ", ["eight", "hundred", "and", "ninety", "six"], "billion");
    assert ["eight", "hundred", "and", "ninety", "six"] + ["billion"] == ["eight", "hundred", "and", "ninety", "six", "billion"];
    assert "eight hundred and ninety six" + " " + "billion" == "eight hundred and ninety six billion";
  }

  lemma Large95505896639631893ShortGroup2Text()
    ensures Unwords(Texts([Small(8), Hundred, And, Tens(9), Small(6), Scale(2)])) == "eight hundred and ninety six billion"
  {
    Large95505896639631893ShortWords16();
    Large95505896639631893ShortText21_6();
  }

  lemma Large95505896639631893ShortSpoken3()
    ensures Spoken([[Tens(9), Small(5), Scale(4)], [Small(5), Hundred, And, Small(5), Scale(3)], [Small(8), Hundred, And, Tens(9), Small(6), Scale(2)]]) == "ninety five quadrillion" + ", " + "five hundred and five trillion" + ", " + "eight hundred and ninety six billion"
  {
    Large95505896639631893ShortSpoken2();
    Large95505896639631893ShortGroup2Text();
    SpokenSnoc([[Tens(9), Small(5), Scale(4)], [Small(5), Hundred, And, Small(5), Scale(3)], [Small(8), Hundred, And, Tens(9), Small(6), Scale(2)]]);
    assert [[Tens(9), Small(5), Scale(4)], [Small(5), Hundred, And, Small(5), Scale(3)], [Small(8), Hundred, And, Tens(9), Small(6), Scale(2)]][..2] == [[Tens(9), Small(5), Scale(4)], [Small(5), Hundred, And, Small(5), Scale(3)]];
  }

  lemma Large95505896639631893ShortWords24()
    ensures Texts([Small(6), Hundred, And, Tens(3), Small(9), Scale(1)]) == ["six", "hundred", "and", "thirty", "nine", "million"]
  {
    assert WordText(Small(6)) == "six";
    assert WordText(Hundred) == "hundred";
    assert WordText(And) == "and";
    assert WordText(Tens(3)) == "thirty";
    assert WordText(Small(9)) == "nine";
    assert WordText(Scale(1)) == "million";
  }

  lemma Large95505896639631893ShortText25_4()
    ensures Unwords(["six", "hundred", "and", "thirty"]) == "six hundred and thirty"
  {
    Hundreds666Text6_3();
    JoinWithAppend(" ", ["six", "hundred", "and"], "thirty");
    assert ["six", "hundred", "and"] + ["thirty"] == ["six", "hundred", "and", "thirty"];
    assert "six hundred and" + " " + "thirty" == "six hundred and thirty";
  }

  lemma Large95505896639631893ShortText26_5()
    ensures Unwords(["six", "hundred", "and", "thirty", "nine"]) == "six hundred and thirty nine"
  {
    Large95505896639631893ShortText25_4();
    JoinWithAppend(" ", ["six", "hundred", "and", "thirty"], "nine");
    assert ["six", "hundred", "and", "thirty"] + ["nine"] == ["six", "hundred", "and", "thirty", "nine"];
    assert "six hundred and thirty" + " " + "nine" == "six hundred and thirty nine";
  }

  lemma Large95505896639631893ShortText27_6()
    ensures Unwords(["six", "hundred", "and", "thirty", "nine", "million"]) == "six hundred and thirty nine million"
  {
    Large95505896639631893ShortText26_5();
    JoinWithAppend(" ", ["six", "hundred", "and", "thirty", "nine"], "million");
    assert ["six", "hundred", "and", "thirty", "nine"] + ["million"] == ["six", "hundred", "and", "thirty", "nine", "million"];
    assert "six hundred and thirty nine" + " " + "million" == "six hundred and thirty nine million";
  }

  lemma Large95505896639631893ShortGroup3Text()
    ensures Unwords(Texts([Small(6), Hundred, And, Tens(3), Small(9), Scale(1)])) == "six hundred and thirty nine million"
  {
    Large95505896639631893ShortWords24();
    Large95505896639631893ShortText27_6();
  }

  lemma Large95505896639631893ShortSpoken4()
    ensures Spoken([[Tens(9), Small(5), Scale(4)], [Small(5), Hundred, And, Small(5), Scale(3)], [Small(8), Hundred, And, Tens(9), Small(6), Scale(2)], [Small(6), Hundred, And, Tens(3), Small(9), Scale(1)]]) == "ninety five quadrillion" + ", " + "five hundred and five trillion" + ", " + "eight hundred and ninety six billion" + ", " + "six hundred and thirty nine million"
  {
    Large95505896639631893ShortSpoken3();
    Large95505896639631893ShortGroup3Text();
    SpokenSnoc([[Tens(9), Small(5), Scale(4)], [Small(5), Hundred, And, Small(5), Scale(3)], [Small(8), Hundred, And, Tens(9), Small(6), Scale(2)], [Small(6), Hundred, And, Tens(3), Small(9), Scale(1)]]);
    assert [[Tens(9), Small(5), Scale(4)], [Small(5), Hundred, And, Small(5), Scale(3)], [Small(8), Hundred, And, Tens(9), Small(6), Scale(2)], [Small(6), Hundred, And, Tens(3), Small(9), Scale(1)]][..3] == [[Tens(9), Small(5), Scale(4)], [Small(5), Hundred, And, Small(5), Scale(3)], [Small(8), Hundred, And, Tens(9), Small(6), Scale(2)]];
  }

  lemma Large95505896639631893ShortWords30()
    ensures Texts([Small(6), Hundred, And, Tens(3), Small(1), Scale(0)]) == ["six", "hundred", "and", "thirty", "one", "thousand"]
  {
    assert WordText(Small(6)) == "six";
    assert WordText(Hundred) == "hundred";
    assert WordText(And) == "and";
    assert WordText(Tens(3)) == "thirty";
    assert WordText(Small(1)) == "one";
    assert WordText(Scale(0)) == "thousand";
  }

  lemma Large95505896639631893ShortText31_5()
    ensures Unwords(["six", "hundred", "and", "thirty", "one"]) == "six hundred and thirty one"
  {
    Large95505896639631893ShortText25_4();
    JoinWithAppend(" ", ["six", "hundred", "and", "thirty"], "one");
    assert ["six", "hundred", "and", "thirty"] + ["one"] == ["six", "hundred", "and", "thirty", "one"];
    assert "six hundred and thirty" + " " + "one" == "six hundred and thirty one";
  }

  lemma Large95505896639631893ShortText32_6()
    ensures Unwords(["six", "hundred", "and", "thirty", "one", "thousand"]) == "six hundred and thirty one thousand"
  {
    Large95505896639631893ShortText31_5();
    JoinWithAppend(" ", ["six", "hundred", "and", "thirty", "one"], "thousand");
    assert ["six", "hundred", "and", "thirty", "one"] + ["thousand"] == ["six", "hundred", "and", "thirty", "one", "thousand"];
    assert "six hundred and thirty one" + " " + "thousand" == "six hundred and thirty one thousand";
  }

  lemma Large95505896639631893ShortGroup4Text()
    ensures Unwords(Texts([Small(6), Hundred, And, Tens(3), Small(1), Scale(0)])) == "six hundred and thirty one thousand"
  {
    Large95505896639631893ShortWords30();
    Large95505896639631893ShortText32_6();
  }

  lemma Large95505896639631893ShortSpoken5()
    ensures Spoken([[Tens(9), Small(5), Scale(4)], [Small(5), Hundred, And, Small(5), Scale(3)], [Small(8), Hundred, And, Tens(9), Small(6), Scale(2)], [Small(6), Hundred, And, Tens(3), Small(9), Scale(1)], [Small(6), Hundred, And, Tens(3), Small(1), Scale(0)]]) == "ninety five quadrillion" + ", " + "five hundred and five trillion" + ", " + "eight hundred and ninety six billion" + ", " + "six hundred and thirty nine million" + ", " + "six hundred and thirty one thousand"
  {
    Large95505896639631893ShortSpoken4();
    Large95505896639631893ShortGroup4Text();
    SpokenSnoc([[Tens(9), Small(5), Scale(4)], [Small(5), Hundred, And, Small(5), Scale(3)], [Small(8), Hundred, And, Tens(9), Small(6), Scale(2)], [Small(6), Hundred, And, Tens(3), Small(9), Scale(1)], [Small(6), Hundred, And, Tens(3), Small(1), Scale(0)]]);
    assert [[Tens(9), Small(5), Scale(4)], [Small(5), Hundred, And, Small(5), Scale(3)], [Small(8), Hundred, And, Tens(9), Small(6), Scale(2)], [Small(6), Hundred, And, Tens(3), Small(9), Scale(1)], [Small(6), Hundred, And, Tens(3), Small(1), Scale(0)]][..4] == [[Tens(9), Small(5), Scale(4)], [Small(5), Hundred, And, Small(5), Scale(3)], [Small(8), Hundred, And, Tens(9), Small(6), Scale(2)], [Small(6), Hundred, And, Tens(3), Small(9), Scale(1)]];
  }

  lemma Large95505896639631893ShortWords35()
    ensures Texts([Small(8), Hundred, And, Tens(9), Small(3)]) == ["eight", "hundred", "and", "ninety", "three"]
  {
    assert WordText(Small(8)) == "eight";
    assert WordText(Hundred) == "hundred";
    assert WordText(And) == "and";
    assert WordText(Tens(9)) == "ninety";
    assert WordText(Small(3)) == "three";
  }

  lemma Large95505896639631893ShortText36_5()
    ensures Unwords(["eight", "hundred", "and", "ninety", "three"]) == "eight hundred and ninety three"
  {
    Large95505896639631893ShortText19_4();
    JoinWithAppend(" ", ["eight", "hundred", "and", "ninety"], "three");
    assert ["eight", "hundred", "and", "ninety"] + ["three"] == ["eight", "hundred", "and", "ninety", "three"];
    assert "eight hundred and ninety" + " " + "three" == "eight hundred and ninety three";
  }

  lemma Large95505896639631893ShortGroup5Text()
    ensures Unwords(Texts([Small(8), Hundred, And, Tens(9), Small(3)])) == "eight hundred and ninety three"
  {
    Large95505896639631893ShortWords35();
    Large95505896639631893ShortText36_5();
  }

  lemma Large95505896639631893ShortSpoken6()
    ensures Spoken([[Tens(9), Small(5), Scale(4)], [Small(5), Hundred, And, Small(5), Scale(3)], [Small(8), Hundred, And, Tens(9), Small(6), Scale(2)], [Small(6), Hundred, And, Tens(3), Small(9), Scale(1)], [Small(6), Hundred, And, Tens(3), Small(1), Scale(0)], [Small(8), Hundred, And, Tens(9), Small(3)]]) == "ninety five quadrillion" + ", " + "five hundred and five trillion" + ", " + "eight hundred and ninety six billion" + ", " + "six hundred and thirty nine million" + ", " + "six hundred and thirty one thousand" + ", " + "eight hundred and ninety three"
  {
    Large95505896639631893ShortSpoken5();
    Large95505896639631893ShortGroup5Text();
    SpokenSnoc([[Tens(9), Small(5), Scale(4)], [Small(5), Hundred, And, Small(5), Scale(3)], [Small(8), Hundred, And, Tens(9), Small(6), Scale(2)], [Small(6), Hundred, And, Tens(3), Small(9), Scale(1)], [Small(6), Hundred, And, Tens(3), Small(1), Scale(0)], [Small(8), Hundred, And, Tens(9), Small(3)]]);
    assert [[Tens(9), Small(5), Scale(4)], [Small(5), Hundred, And, Small(5), Scale(3)], [Small(8), Hundred, And, Tens(9), Small(6), Scale(2)], [Small(6), Hundred, And, Tens(3), Small(9), Scale(1)], [Small(6), Hundred, And, Tens(3), Small(1), Scale(0)], [Small(8), Hundred, And, Tens(9), Small(3)]][..5] == [[Tens(9), Small(5), Scale(4)], [Small(5), Hundred, And, Small(5), Scale(3)], [Small(8), Hundred, And, Tens(9), Small(6), Scale(2)], [Small(6), Hundred, And, Tens(3), Small(9), Scale(1)], [Small(6), Hundred, And, Tens(3), Small(1), Scale(0)]];
  }

  /** Short scale (test/test_format.py:263): ninety five quadrillion, five hundred and five trillion, eight hundred and ninety six billion, six hundred and thirty nine million, six hundred and thirty one thousand, eight hundred and ninety three. */
  lemma Large95505896639631893Short()
    ensures Reading(95505896639631893, true, false) == [[Tens(9), Small(5), Scale(4)], [Small(5), Hundred, And, Small(5), Scale(3)], [Small(8), Hundred, And, Tens(9), Small(6), Scale(2)], [Small(6), Hundred, And, Tens(3), Small(9), Scale(1)], [Small(6), Hundred, And, Tens(3), Small(1), Scale(0)], [Small(8), Hundred, And, Tens(9), Small(3)]]
    ensures PronounceNumber(95505896639631893, true, false) == Spelled("ninety five quadrillion" + ", " + "five hundred and five trillion" + ", " + "eight hundred and ninety six billion" + ", " + "six hundred and thirty nine million" + ", " + "six hundred and thirty one thousand" + ", " + "eight hundred and ninety three")
  {
    Large95505896639631893ShortMagnitude();
    Large95505896639631893ShortSpoken6();
    assert Colloquial(95505896639631893).None?;
    assert Cardinal(95505896639631893, true) == [[Tens(9), Small(5), Scale(4)], [Small(5), Hundred, And, Small(5), Scale(3)], [Small(8), Hundred, And, Tens(9), Small(6), Scale(2)], [Small(6), Hundred, And, Tens(3), Small(9), Scale(1)], [Small(6), Hundred, And, Tens(3), Small(1), Scale(0)], [Small(8), Hundred, And, Tens(9), Small(3)]];
  }

  lemma Large95505896639631893LongGroup95_1()
    ensures ShortGroup(95, 1) == [[Tens(9), Small(5), Scale(0)]]
  {
    assert SubThousand(95) == [Tens(9), Small(5)];
    assert SubThousand(95) + [Scale(0)] == [Tens(9), Small(5), Scale(0)];
  }

  lemma Large95505896639631893LongGroup505_0()
    ensures ShortGroup(505, 0) == [[Small(5), Hundred, And, Small(5)]]
  {
    assert SubHundred(5) == [Small(5)];
    assert SubThousand(505) == [Small(5), Hundred, And, Small(5)];
  }

  lemma Large95505896639631893LongChunk95505_2()
    ensures LongChunk(95505, 2) == [[Tens(9), Small(5), Scale(0), Small(5), Hundred, And, Small(5), Scale(2)]]
  {
    Large95505896639631893LongGroup95_1();
    Large95505896639631893LongGroup505_0();
    assert ShortGroups(95, 1) == [[Tens(9), Small(5), Scale(0)]];
    assert ShortGroups(95505, 0) == [[Tens(9), Small(5), Scale(0)], [Small(5), Hundred, And, Small(5)]];
    assert Flatten([[Tens(9), Small(5), Scale(0)], [Small(5), Hundred, And, Small(5)]]) == [Tens(9), Small(5), Scale(0), Small(5), Hundred, And, Small(5)];
    assert [Tens(9), Small(5), Scale(0), Small(5), Hundred, And, Small(5)] + [Scale(2)] == [Tens(9), Small(5), Scale(0), Small(5), Hundred, And, Small(5), Scale(2)];
  }

  lemma Large95505896639631893LongGroup896_1()
    ensures ShortGroup(896, 1) == [[Small(8), Hundred, And, Tens(9), Small(6), Scale(0)]]
  {
    assert SubHundred(96) == [Tens(9), Small(6)];
    assert SubThousand(896) == [Small(8), Hundred, And, Tens(9), Small(6)];
    assert SubThousand(896) + [Scale(0)] == [Small(8), Hundred, And, Tens(9), Small(6), Scale(0)];
  }

  lemma Large95505896639631893LongGroup639_0()
    ensures ShortGroup(639, 0) == [[Small(6), Hundred, And, Tens(3), Small(9)]]
  {
    assert SubHundred(39) == [Tens(3), Small(9)];
    assert SubThousand(639) == [Small(6), Hundred, And, Tens(3), Small(9)];
  }

  lemma Large95505896639631893LongChunk896639_1()
    ensures LongChunk(896639, 1) == [[Small(8), Hundred, And, Tens(9), Small(6), Scale(0), Small(6), Hundred, And, Tens(3), Small(9), Scale(1)]]
  {
    Large95505896639631893LongGroup896_1();
    Large95505896639631893LongGroup639_0();
    assert ShortGroups(896, 1) == [[Small(8), Hundred, And, Tens(9), Small(6), Scale(0)]];
    assert ShortGroups(896639, 0) == [[Small(8), Hundred, And, Tens(9), Small(6), Scale(0)], [Small(6), Hundred, And, Tens(3), Small(9)]];
    assert Flatten([[Small(8), Hundred, And, Tens(9), Small(6), Scale(0)], [Small(6), Hundred, And, Tens(3), Small(9)]]) == [Small(8), Hundred, And, Tens(9), Small(6), Scale(0), Small(6), Hundred, And, Tens(3), Small(9)];
    assert [Small(8), Hundred, And, Tens(9), Small(6), Scale(0), Small(6), Hundred, And, Tens(3), Small(9)] + [Scale(1)] == [Small(8), Hundred, And, Tens(9), Small(6), Scale(0), Small(6), Hundred, And, Tens(3), Small(9), Scale(1)];
  }

  lemma Large95505896639631893LongChunk631893_0()
    ensures LongChunk(631893, 0) == [[Small(6), Hundred, And, Tens(3), Small(1), Scale(0)], [Small(8), Hundred, And, Tens(9), Small(3)]]
  {
    Large95505896639631893ShortGroup631_1();
    Large95505896639631893ShortGroup893_0();
    assert ShortGroups(631, 1) == [[Small(6), Hundred, And, Tens(3), Small(1), Scale(0)]];
    assert ShortGroups(631893, 0) == [[Small(6), Hundred, And, Tens(3), Small(1), Scale(0)], [Small(8), Hundred, And, Tens(9), Small(3)]];
  }

  lemma Large95505896639631893LongMagnitude()
    ensures Magnitude(95505896639631893, false) == [[Tens(9), Small(5), Scale(0), Small(5), Hundred, And, Small(5), Scale(2)], [Small(8), Hundred, And, Tens(9), Small(6), Scale(0), Small(6), Hundred, And, Tens(3), Small(9), Scale(1)], [Small(6), Hundred, And, Tens(3), Small(1), Scale(0)], [Small(8), Hundred, And, Tens(9), Small(3)]]
  {
    Large95505896639631893LongChunk95505_2();
    Large95505896639631893LongChunk896639_1();
    Large95505896639631893LongChunk631893_0();
    assert LongGroups(95505896639, 1) == [[Tens(9), Small(5), Scale(0), Small(5), Hundred, And, Small(5), Scale(2)], [Small(8), Hundred, And, Tens(9), Small(6), Scale(0), Small(6), Hundred, And, Tens(3), Small(9), Scale(1)]];
    assert LongGroups(95505896639631893, 0) == [[Tens(9), Small(5), Scale(0), Small(5), Hundred, And, Small(5), Scale(2)], [Small(8), Hundred, And, Tens(9), Small(6), Scale(0), Small(6), Hundred, And, Tens(3), Small(9), Scale(1)], [Small(6), Hundred, And, Tens(3), Small(1), Scale(0)], [Small(8), Hundred, And, Tens(9), Small(3)]];
  }

  lemma Large95505896639631893LongWords8()
    ensures Texts([Tens(9), Small(5), Scale(0), Small(5)]) == ["ninety", "five", "thousand", "five"]
  {
    assert WordText(Tens(9)) == "ninety";
    assert WordText(Small(5)) == "five";
    assert WordText(Scale(0)) == "thousand";
    assert WordText(Small(5)) == "five";
  }

  lemma Large95505896639631893LongWords9()
    ensures Texts([Hundred, And, Small(5), Scale(2)]) == ["hundred", "and", "five", "billion"]
  {
    assert WordText(Hundred) == "hundred";
    assert WordText(And) == "and";
    assert WordText(Small(5)) == "five";
    assert WordText(Scale(2)) == "billion";
  }

  lemma Large95505896639631893LongWords10()
    ensures Texts([Tens(9), Small(5), Scale(0), Small(5), Hundred, And, Small(5), Scale(2)]) == ["ninety", "five", "thousand", "five", "hundred", "and", "five", "billion"]
  {
    Large95505896639631893LongWords8();
    Large95505896639631893LongWords9();
    TextsConcat([Tens(9), Small(5), Scale(0), Small(5)], [Hundred, And, Small(5), Scale(2)]);
    assert [Tens(9), Small(5), Scale(0), Small(5)] + [Hundred, And, Small(5), Scale(2)] == [Tens(9), Small(5), Scale(0), Small(5), Hundred, And, Small(5), Scale(2)];
    assert ["ninety", "five", "thousand", "five"] + ["hundred", "and", "five", "billion"] == ["ninety", "five", "thousand", "five", "hundred", "and", "five", "billion"];
  }

  lemma Large95505896639631893LongText11()
    ensures Unwords(["ninety", "five", "thousand"]) == "ninety five thousand"
  {
  }

  lemma Large95505896639631893LongText12_5()
    ensures Unwords(["five", "hundred", "and", "five", "billion"]) == "five hundred and five billion"
  {
    Large95505896639631893ShortText12_4();
    JoinWithAppend(" ", ["five", "hundred", "and", "five"], "billion");
    assert ["five", "hundred", "and", "five"] + ["billion"] == ["five", "hundred", "and", "five", "billion"];
    assert "five hundred and five" + " " + "billion" == "five hundred and five billion";
  }

  lemma Large95505896639631893LongGroup0Text()
    ensures Unwords(Texts([Tens(9), Small(5), Scale(0), Small(5), Hundred, And, Small(5), Scale(2)])) == "ninety five thousand" + " " + "five hundred and five billion"
  {
    Large95505896639631893LongWords10();
    Large95505896639631893LongText11();
    Large95505896639631893LongText12_5();
    JoinWithConcat(" ", ["ninety", "five", "thousand"], ["five", "hundred", "and", "five", "billion"]);
    assert ["ninety", "five", "thousand"] + ["five", "hundred", "and", "five", "billion"] == ["ninety", "five", "thousand", "five", "hundred", "and", "five", "billion"];
  }

  lemma Large95505896639631893LongSpoken1()
    ensures Spoken([[Tens(9), Small(5), Scale(0), Small(5), Hundred, And, Small(5), Scale(2)]]) == "ninety five thousand" + " " + "five hundred and five billion"
  {
    Large95505896639631893LongGroup0Text();
    SpokenSingle([Tens(9), Small(5), Scale(0), Small(5), Hundred, And, Small(5), Scale(2)]);
  }

  lemma Large95505896639631893LongWords15()
    ensures Texts([Small(8), Hundred, And, Tens(9), Small(6), Scale(0)]) == ["eight", "hundred", "and", "ninety", "six", "thousand"]
  {
    assert WordText(Small(8)) == "eight";
    assert WordText(Hundred) == "hundred";
    assert WordText(And) == "and";
    assert WordText(Tens(9)) == "ninety";
    assert WordText(Small(6)) == "six";
    assert WordText(Scale(0)) == "thousand";
  }

  lemma Large95505896639631893LongWords16()
    ensures Texts([Small(8), Hundred, And, Tens(9), Small(6), Scale(0), Small(6), Hundred, And, Tens(3), Small(9), Scale(1)]) == ["eight", "hundred", "and", "ninety", "six", "thousand", "six", "hundred", "and", "thirty", "nine", "million"]
  {
    Large95505896639631893LongWords15();
    Large95505896639631893ShortWords24();
    TextsConcat([Small(8), Hundred, And, Tens(9), Small(6), Scale(0)], [Small(6), Hundred, And, Tens(3), Small(9), Scale(1)]);
    assert [Small(8), Hundred, And, Tens(9), Small(6), Scale(0)] + [Small(6), Hundred, And, Tens(3), Small(9), Scale(1)] == [Small(8), Hundred, And, Tens(9), Small(6), Scale(0), Small(6), Hundred, And, Tens(3), Small(9), Scale(1)];
    assert ["eight", "hundred", "and", "ninety", "six", "thousand"] + ["six", "hundred", "and", "thirty", "nine", "million"] == ["eight", "hundred", "and", "ninety", "six", "thousand", "six", "hundred", "and", "thirty", "nine", "million"];
  }

  lemma Large95505896639631893LongText17_6()
    ensures Unwords(["eight", "hundred", "and", "ninety", "six", "thousand"]) == "eight hundred and ninety six thousand"
  {
    Large95505896639631893ShortText20_5();
    JoinWithAppend(" ", ["eight", "hundred", "and", "ninety", "six"], "thousand");
    assert ["eight", "hundred", "and", "ninety", "six"] + ["thousand"] == ["eight", "hundred", "and", "ninety", "six", "thousand"];
    assert "eight hundred and ninety six" + " " + "thousand" == "eight hundred and ninety six thousand";
  }

  lemma Large95505896639631893LongGroup1Text()
    ensures Unwords(Texts([Small(8), Hundred, And, Tens(9), Small(6), Scale(0), Small(6), Hundred, And, Tens(3), Small(9), Scale(1)])) == "eight hundred and ninety six thousand" + " " + "six hundred and thirty nine million"
  {
    Large95505896639631893LongWords16();
    Large95505896639631893LongText17_6();
    Large95505896639631893ShortText27_6();
    JoinWithConcat(" ", ["eight", "hundred", "and", "ninety", "six", "thousand"], ["six", "hundred", "and", "thirty", "nine", "million"]);
    assert ["eight", "hundred", "and", "ninety", "six", "thousand"] + ["six", "hundred", "and", "thirty", "nine", "million"] == ["eight", "hundred", "and", "ninety", "six", "thousand", "six", "hundred", "and", "thirty", "nine", "million"];
  }

  lemma Large95505896639631893LongSpoken2()
    ensures Spoken([[Tens(9), Small(5), Scale(0), Small(5), Hundred, And, Small(5), Scale(2)], [Small(8), Hundred, And, Tens(9), Small(6), Scale(0), Small(6), Hundred, And, Tens(3), Small(9), Scale(1)]]) == "ninety five thousand" + " " + "five hundred and five billion" + ", " + "eight hundred and ninety six thousand" + " " + "six hundred and thirty nine million"
  {
    Large95505896639631893LongSpoken1();
    Large95505896639631893LongGroup1Text();
    SpokenSnoc([[Tens(9), Small(5), Scale(0), Small(5), Hundred, And, Small(5), Scale(2)], [Small(8), Hundred, And, Tens(9), Small(6), Scale(0), Small(6), Hundred, And, Tens(3), Small(9), Scale(1)]]);
    assert [[Tens(9), Small(5), Scale(0), Small(5), Hundred, And, Small(5), Scale(2)], [Small(8), Hundred, And, Tens(9), Small(6), Scale(0), Small(6), Hundred, And, Tens(3), Small(9), Scale(1)]][..1] == [[Tens(9), Small(5), Scale(0), Small(5), Hundred, And, Small(5), Scale(2)]];
    AppendTwoParts("ninety five thousand" + " " + "five hundred and five billion" + ", ", "eight hundred and ninety six thousand", " ", "six hundred and thirty nine million");
  }

  lemma Large95505896639631893LongSpoken3()
    ensures Spoken([[Tens(9), Small(5), Scale(0), Small(5), Hundred, And, Small(5), Scale(2)], [Small(8), Hundred, And, Tens(9), Small(6), Scale(0), Small(6), Hundred, And, Tens(3), Small(9), Scale(1)], [Small(6), Hundred, And, Tens(3), Small(1), Scale(0)]]) == "ninety five thousand" + " " + "five hundred and five billion" + ", " + "eight hundred and ninety six thousand" + " " + "six hundred and thirty nine million" + ", " + "six hundred and thirty one thousand"
  {
    Large95505896639631893LongSpoken2();
    Large95505896639631893ShortGroup4Text();
    SpokenSnoc([[Tens(9), Small(5), Scale(0), Small(5), Hundred, And, Small(5), Scale(2)], [Small(8), Hundred, And, Tens(9), Small(6), Scale(0), Small(6), Hundred, And, Tens(3), Small(9), Scale(1)], [Small(6), Hundred, And, Tens(3), Small(1), Scale(0)]]);
    assert [[Tens(9), Small(5), Scale(0), Small(5), Hundred, And, Small(5), Scale(2)], [Small(8), Hundred, And, Tens(9), Small(6), Scale(0), Small(6), Hundred, And, Tens(3), Small(9), Scale(1)], [Small(6), Hundred, And, Tens(3), Small(1), Scale(0)]][..2] == [[Tens(9), Small(5), Scale(0), Small(5), Hundred, And, Small(5), Scale(2)], [Small(8), Hundred, And, Tens(9), Small(6), Scale(0), Small(6), Hundred, And, Tens(3), Small(9), Scale(1)]];
  }

  lemma Large95505896639631893LongSpoken4()
    ensures Spoken([[Tens(9), Small(5), Scale(0), Small(5), Hundred, And, Small(5), Scale(2)], [Small(8), Hundred, And, Tens(9), Small(6), Scale(0), Small(6), Hundred, And, Tens(3), Small(9), Scale(1)], [Small(6), Hundred, And, Tens(3), Small(1), Scale(0)], [Small(8), Hundred, And, Tens(9), Small(3)]]) == "ninety five thousand" + " " + "five hundred and five billion" + ", " + "eight hundred and ninety six thousand" + " " + "six hundred and thirty nine million" + ", " + "six hundred and thirty one thousand" + ", " + "eight hundred and ninety three"
  {
    Large95505896639631893LongSpoken3();
    Large95505896639631893ShortGroup5Text();
    SpokenSnoc([[Tens(9), Small(5), Scale(0), Small(5), Hundred, And, Small(5), Scale(2)], [Small(8), Hundred, And, Tens(9), Small(6), Scale(0), Small(6), Hundred, And, Tens(3), Small(9), Scale(1)], [Small(6), Hundred, And, Tens(3), Small(1), Scale(0)], [Small(8), Hundred, And, Tens(9), Small(3)]]);
    assert [[Tens(9), Small(5), Scale(0), Small(5), Hundred, And, Small(5), Scale(2)], [Small(8), Hundred, And, Tens(9), Small(6), Scale(0), Small(6), Hundred, And, Tens(3), Small(9), Scale(1)], [Small(6), Hundred, And, Tens(3), Small(1), Scale(0)], [Small(8), Hundred, And, Tens(9), Small(3)]][..3] == [[Tens(9), Small(5), Scale(0), Small(5), Hundred, And, Small(5), Scale(2)], [Small(8), Hundred, And, Tens(9), Small(6), Scale(0), Small(6), Hundred, And, Tens(3), Small(9), Scale(1)], [Small(6), Hundred, And, Tens(3), Small(1), Scale(0)]];
  }

  /** Long scale (test/test_format.py:268): ninety five thousand five hundred and five billion, eight hundred and ninety six thousand six hundred and thirty nine million, six hundred and thirty one thousand, eight hundred and ninety three. */
  lemma Large95505896639631893Long()
    ensures Reading(95505896639631893, false, false) == [[Tens(9), Small(5), Scale(0), Small(5), Hundred, And, Small(5), Scale(2)], [Small(8), Hundred, And, Tens(9), Small(6), Scale(0), Small(6), Hundred, And, Tens(3), Small(9), Scale(1)], [Small(6), Hundred, And, Tens(3), Small(1), Scale(0)], [Small(8), Hundred, And, Tens(9), Small(3)]]
    ensures PronounceNumber(95505896639631893, false, false) == Spelled("ninety five thousand" + " " + "five hundred and five billion" + ", " + "eight hundred and ninety six thousand" + " " + "six hundred and thirty nine million" + ", " + "six hundred and thirty one thousand" + ", " + "eight hundred and ninety three")
  {
    Large95505896639631893LongMagnitude();
    Large95505896639631893LongSpoken4();
    assert Colloquial(95505896639631893).None?;
    assert Cardinal(95505896639631893, false) == [[Tens(9), Small(5), Scale(0), Small(5), Hundred, And, Small(5), Scale(2)], [Small(8), Hundred, And, Tens(9), Small(6), Scale(0), Small(6), Hundred, And, Tens(3), Small(9), Scale(1)], [Small(6), Hundred, And, Tens(3), Small(1), Scale(0)], [Small(8), Hundred, And, Tens(9), Small(3)]];
  }

  lemma Ordinal1Ordinalize()
    ensures Ordinalize([[Small(1)]]) == [[Ordinal(Small(1))]]
  {
    assert [] + [Ordinal(Small(1))] == [Ordinal(Small(1))];
    assert Ordinalize([[Small(1)]])[0] == [Ordinal(Small(1))];
  }

  lemma Ordinal1Ordinal1()
    ensures OrdinalWord("one") == "first"
  {
  }

  lemma Ordinal1Words2()
    ensures Texts([Ordinal(Small(1))]) == ["first"]
  {
    Ordinal1Ordinal1();
    assert WordText(Small(1)) == "one";
    assert WordText(Ordinal(Small(1))) == "first";
  }

  lemma Ordinal1Text3()
    ensures Unwords(["first"]) == "first"
  {
  }

  /** Ordinals (test/test_format.py:359): first. */
  lemma Ordinal1()
    ensures Reading(1, true, true) == [[Ordinal(Small(1))]]
    ensures PronounceNumber(1, true, true) == Spelled("first")
  {
    Int1Magnitude();
    Ordinal1Ordinalize();
    Ordinal1Words2();
    Ordinal1Text3();
    assert Cardinal(1, true) == [[Small(1)]];
    SpokenSingle([Ordinal(Small(1))]);
  }

  lemma Ordinal10Ordinalize()
    ensures Ordinalize([[Small(10)]]) == [[Ordinal(Small(10))]]
  {
    assert [] + [Ordinal(Small(10))] == [Ordinal(Small(10))];
    assert Ordinalize([[Small(10)]])[0] == [Ordinal(Small(10))];
  }

  lemma Ordinal10Ordinal1()
    ensures OrdinalWord("ten") == "tenth"
  {
  }

  lemma Ordinal10Words2()
    ensures Texts([Ordinal(Small(10))]) == ["tenth"]
  {
    Ordinal10Ordinal1();
    assert WordText(Small(10)) == "ten";
    assert WordText(Ordinal(Small(10))) == "tenth";
  }

  lemma Ordinal10Text3()
    ensures Unwords(["tenth"]) == "tenth"
  {
  }

  /** Ordinals (test/test_format.py:360): tenth. */
  lemma Ordinal10()
    ensures Reading(10, true, true) == [[Ordinal(Small(10))]]
    ensures PronounceNumber(10, true, true) == Spelled("tenth")
  {
    Int10Magnitude();
    Ordinal10Ordinalize();
    Ordinal10Words2();
    Ordinal10Text3();
    assert Cardinal(10, true) == [[Small(10)]];
    SpokenSingle([Ordinal(Small(10))]);
  }

  lemma Ordinal15Ordinalize()
    ensures Ordinalize([[Small(15)]]) == [[Ordinal(Small(15))]]
  {
    assert [] + [Ordinal(Small(15))] == [Ordinal(Small(15))];
    assert Ordinalize([[Small(15)]])[0] == [Ordinal(Small(15))];
  }

  lemma Ordinal15Ordinal1()
    ensures OrdinalWord("fifteen") == "fifteenth"
  {
  }

  lemma Ordinal15Words2()
    ensures Texts([Ordinal(Small(15))]) == ["fifteenth"]
  {
    Ordinal15Ordinal1();
    assert WordText(Small(15)) == "fifteen";
    assert WordText(Ordinal(Small(15))) == "fifteenth";
  }

  lemma Ordinal15Text3()
    ensures Unwords(["fifteenth"]) == "fifteenth"
  {
  }

  /** Ordinals (test/test_format.py:361): fifteenth. */
  lemma Ordinal15()
    ensures Reading(15, true, true) == [[Ordinal(Small(15))]]
    ensures PronounceNumber(15, true, true) == Spelled("fifteenth")
  {
    Int15Magnitude();
    Ordinal15Ordinalize();
    Ordinal15Words2();
    Ordinal15Text3();
    assert Cardinal(15, true) == [[Small(15)]];
    SpokenSingle([Ordinal(Small(15))]);
  }

  lemma Ordinal20Ordinalize()
    ensures Ordinalize([[Tens(2)]]) == [[Ordinal(Tens(2))]]
  {
    assert [] + [Ordinal(Tens(2))] == [Ordinal(Tens(2))];
    assert Ordinalize([[Tens(2)]])[0] == [Ordinal(Tens(2))];
  }

  lemma Ordinal20Ordinal1()
    ensures OrdinalWord("twenty") == "twentieth"
  {
  }

  lemma Ordinal20Words2()
    ensures Texts([Ordinal(Tens(2))]) == ["twentieth"]
  {
    Ordinal20Ordinal1();
    assert WordText(Tens(2)) == "twenty";
    assert WordText(Ordinal(Tens(2))) == "twentieth";
  }

  lemma Ordinal20Text3()
    ensures Unwords(["twentieth"]) == "twentieth"
  {
  }

  /** Ordinals (test/test_format.py:362): twentieth. */
  lemma Ordinal20()
    ensures Reading(20, true, true) == [[Ordinal(Tens(2))]]
    ensures PronounceNumber(20, true, true) == Spelled("twentieth")
  {
    Int20Magnitude();
    Ordinal20Ordinalize();
    Ordinal20Words2();
    Ordinal20Text3();
    assert Cardinal(20, true) == [[Tens(2)]];
    SpokenSingle([Ordinal(Tens(2))]);
  }

  lemma Ordinal27Ordinalize()
    ensures Ordinalize([[Tens(2), Small(7)]]) == [[Tens(2), Ordinal(Small(7))]]
  {
    assert [Tens(2)] + [Ordinal(Small(7))] == [Tens(2), Ordinal(Small(7))];
    assert Ordinalize([[Tens(2), Small(7)]])[0] == [Tens(2), Ordinal(Small(7))];
  }

  lemma Ordinal27Ordinal1()
    ensures OrdinalWord("seven") == "seventh"
  {
  }

  lemma Ordinal27Words2()
    ensures Texts([Tens(2), Ordinal(Small(7))]) == ["twenty", "seventh"]
  {
    Ordinal27Ordinal1();
    assert WordText(Tens(2)) == "twenty";
    assert WordText(Small(7)) == "seven";
    assert WordText(Ordinal(Small(7))) == "seventh";
  }

  lemma Ordinal27Text3()
    ensures Unwords(["twenty", "seventh"]) == "twenty seventh"
  {
  }

  /** Ordinals (test/test_format.py:363): twenty seventh. */
  lemma Ordinal27()
    ensures Reading(27, true, true) == [[Tens(2), Ordinal(Small(7))]]
    ensures PronounceNumber(27, true, true) == Spelled("twenty seventh")
  {
    Int27Magnitude();
    Ordinal27Ordinalize();
    Ordinal27Words2();
    Ordinal27Text3();
    assert Cardinal(27, true) == [[Tens(2), Small(7)]];
    SpokenSingle([Tens(2), Ordinal(Small(7))]);
  }

  lemma Ordinal30Ordinalize()
    ensures Ordinalize([[Tens(3)]]) == [[Ordinal(Tens(3))]]
  {
    assert [] + [Ordinal(Tens(3))] == [Ordinal(Tens(3))];
    assert Ordinalize([[Tens(3)]])[0] == [Ordinal(Tens(3))];
  }

  lemma Ordinal30Ordinal1()
    ensures OrdinalWord("thirty") == "thirtieth"
  {
  }

  lemma Ordinal30Words2()
    ensures Texts([Ordinal(Tens(3))]) == ["thirtieth"]
  {
    Ordinal30Ordinal1();
    assert WordText(Tens(3)) == "thirty";
    assert WordText(Ordinal(Tens(3))) == "thirtieth";
  }

  lemma Ordinal30Text3()
    ensures Unwords(["thirtieth"]) == "thirtieth"
  {
  }

  /** Ordinals (test/test_format.py:364): thirtieth. */
  lemma Ordinal30()
    ensures Reading(30, true, true) == [[Ordinal(Tens(3))]]
    ensures PronounceNumber(30, true, true) == Spelled("thirtieth")
  {
    Int30Magnitude();
    Ordinal30Ordinalize();
    Ordinal30Words2();
    Ordinal30Text3();
    assert Cardinal(30, true) == [[Tens(3)]];
    SpokenSingle([Ordinal(Tens(3))]);
  }

  lemma Ordinal33Ordinalize()
    ensures Ordinalize([[Tens(3), Small(3)]]) == [[Tens(3), Ordinal(Small(3))]]
  {
    assert [Tens(3)] + [Ordinal(Small(3))] == [Tens(3), Ordinal(Small(3))];
    assert Ordinalize([[Tens(3), Small(3)]])[0] == [Tens(3), Ordinal(Small(3))];
  }

  lemma Ordinal33Ordinal1()
    ensures OrdinalWord("three") == "third"
  {
  }

  lemma Ordinal33Words2()
    ensures Texts([Tens(3), Ordinal(Small(3))]) == ["thirty", "third"]
  {
    Ordinal33Ordinal1();
    assert WordText(Tens(3)) == "thirty";
    assert WordText(Small(3)) == "three";
    assert WordText(Ordinal(Small(3))) == "third";
  }

  lemma Ordinal33Text3()
    ensures Unwords(["thirty", "third"]) == "thirty third"
  {
  }

  /** Ordinals (test/test_format.py:365): thirty third. */
  lemma Ordinal33()
    ensures Reading(33, true, true) == [[Tens(3), Ordinal(Small(3))]]
    ensures PronounceNumber(33, true, true) == Spelled("thirty third")
  {
    Int33Magnitude();
    Ordinal33Ordinalize();
    Ordinal33Words2();
    Ordinal33Text3();
    assert Cardinal(33, true) == [[Tens(3), Small(3)]];
    SpokenSingle([Tens(3), Ordinal(Small(3))]);
  }

  lemma Ordinal100Ordinalize()
    ensures Ordinalize([[Small(1), Hundred]]) == [[Ordinal(Hundred)]]
  {
  }

  lemma Ordinal100Ordinal1()
    ensures OrdinalWord("hundred") == "hundredth"
  {
  }

  lemma Ordinal100Words2()
    ensures Texts([Ordinal(Hundred)]) == ["hundredth"]
  {
    Ordinal100Ordinal1();
    assert WordText(Hundred) == "hundred";
    assert WordText(Ordinal(Hundred)) == "hundredth";
  }

  lemma Ordinal100Text3()
    ensures Unwords(["hundredth"]) == "hundredth"
  {
  }

  /** Ordinals (test/test_format.py:366): hundredth. */
  lemma Ordinal100()
    ensures Reading(100, true, true) == [[Ordinal(Hundred)]]
    ensures PronounceNumber(100, true, true) == Spelled("hundredth")
  {
    Hundreds100Magnitude();
    Ordinal100Ordinalize();
    Ordinal100Words2();
    Ordinal100Text3();
    assert Cardinal(100, true) == [[Small(1), Hundred]];
    SpokenSingle([Ordinal(Hundred)]);
  }

  lemma Ordinal1000Group1_1()
    ensures ShortGroup(1, 1) == [[Small(1), Scale(0)]]
  {
    assert SubThousand(1) == [Small(1)];
    assert SubThousand(1) + [Scale(0)] == [Small(1), Scale(0)];
  }

  lemma Ordinal1000Magnitude()
    ensures Magnitude(1000, true) == [[Small(1), Scale(0)]]
  {
    Ordinal1000Group1_1();
    assert ShortGroups(1, 1) == [[Small(1), Scale(0)]];
    assert ShortGroups(1000, 0) == [[Small(1), Scale(0)]];
  }

  lemma Ordinal1000Ordinalize()
    ensures Ordinalize([[Small(1), Scale(0)]]) == [[Ordinal(Scale(0))]]
  {
  }

  lemma Ordinal1000Ordinal3()
    ensures OrdinalWord("thousand") == "thousandth"
  {
  }

  lemma Ordinal1000Words4()
    ensures Texts([Ordinal(Scale(0))]) == ["thousandth"]
  {
    Ordinal1000Ordinal3();
    assert WordText(Scale(0)) == "thousand";
    assert WordText(Ordinal(Scale(0))) == "thousandth";
  }

  lemma Ordinal1000Text5()
    ensures Unwords(["thousandth"]) == "thousandth"
  {
  }

  /** Ordinals (test/test_format.py:367): thousandth. */
  lemma Ordinal1000()
    ensures Reading(1000, true, true) == [[Ordinal(Scale(0))]]
    ensures PronounceNumber(1000, true, true) == Spelled("thousandth")
  {
    Ordinal1000Magnitude();
    Ordinal1000Ordinalize();
    Ordinal1000Words4();
    Ordinal1000Text5();
    assert Cardinal(1000, true) == [[Small(1), Scale(0)]];
    SpokenSingle([Ordinal(Scale(0))]);
  }

  lemma Ordinal10000Group10_1()
    ensures ShortGroup(10, 1) == [[Small(10), Scale(0)]]
  {
    assert SubThousand(10) == [Small(10)];
    assert SubThousand(10) + [Scale(0)] == [Small(10), Scale(0)];
  }

  lemma Ordinal10000Magnitude()
    ensures Magnitude(10000, true) == [[Small(10), Scale(0)]]
  {
    Ordinal10000Group10_1();
    assert ShortGroups(10, 1) == [[Small(10), Scale(0)]];
    assert ShortGroups(10000, 0) == [[Small(10), Scale(0)]];
  }

  lemma Ordinal10000Ordinalize()
    ensures Ordinalize([[Small(10), Scale(0)]]) == [[Small(10), Ordinal(Scale(0))]]
  {
    assert [Small(10)] + [Ordinal(Scale(0))] == [Small(10), Ordinal(Scale(0))];
    assert Ordinalize([[Small(10), Scale(0)]])[0] == [Small(10), Ordinal(Scale(0))];
  }

  lemma Ordinal10000Words3()
    ensures Texts([Small(10), Ordinal(Scale(0))]) == ["ten", "thousandth"]
  {
    Ordinal1000Ordinal3();
    assert WordText(Small(10)) == "ten";
    assert WordText(Scale(0)) == "thousand";
    assert WordText(Ordinal(Scale(0))) == "thousandth";
  }

  lemma Ordinal10000Text4()
    ensures Unwords(["ten", "thousandth"]) == "ten thousandth"
  {
  }

  /** Ordinals (test/test_format.py:368): ten thousandth. */
  lemma Ordinal10000()
    ensures Reading(10000, true, true) == [[Small(10), Ordinal(Scale(0))]]
    ensures PronounceNumber(10000, true, true) == Spelled("ten thousandth")
  {
    Ordinal10000Magnitude();
    Ordinal10000Ordinalize();
    Ordinal10000Words3();
    Ordinal10000Text4();
    assert Cardinal(10000, true) == [[Small(10), Scale(0)]];
    SpokenSingle([Small(10), Ordinal(Scale(0))]);
  }

  lemma Ordinal18691Group18_1()
    ensures ShortGroup(18, 1) == [[Small(18), Scale(0)]]
  {
    assert SubThousand(18) == [Small(18)];
    assert SubThousand(18) + [Scale(0)] == [Small(18), Scale(0)];
  }

  lemma Ordinal18691Group691_0()
    ensures ShortGroup(691, 0) == [[Small(6), Hundred, And, Tens(9), Small(1)]]
  {
    assert SubHundred(91) == [Tens(9), Small(1)];
    assert SubThousand(691) == [Small(6), Hundred, And, Tens(9), Small(1)];
  }

  lemma Ordinal18691Magnitude()
    ensures Magnitude(18691, true) == [[Small(18), Scale(0)], [Small(6), Hundred, And, Tens(9), Small(1)]]
  {
    Ordinal18691Group18_1();
    Ordinal18691Group691_0();
    assert ShortGroups(18, 1) == [[Small(18), Scale(0)]];
    assert ShortGroups(18691, 0) == [[Small(18), Scale(0)], [Small(6), Hundred, And, Tens(9), Small(1)]];
  }

  lemma Ordinal18691Ordinalize()
    ensures Ordinalize([[Small(18), Scale(0)], [Small(6), Hundred, And, Tens(9), Small(1)]]) == [[Small(18), Scale(0)], [Small(6), Hundred, And, Tens(9), Ordinal(Small(1))]]
  {
    assert [Small(6), Hundred, And, Tens(9)] + [Ordinal(Small(1))] == [Small(6), Hundred, And, Tens(9), Ordinal(Small(1))];
    assert Ordinalize([[Small(18), Scale(0)], [Small(6), Hundred, And, Tens(9), Small(1)]])[1] == [Small(6), Hundred, And, Tens(9), Ordinal(Small(1))];
  }

  lemma Ordinal18691Words4()
    ensures Texts([Small(18), Scale(0)]) == ["eighteen", "thousand"]
  {
    assert WordText(Small(18)) == "eighteen";
    assert WordText(Scale(0)) == "thousand";
  }

  lemma Ordinal18691Text5()
    ensures Unwords(["eighteen", "thousand"]) == "eighteen thousand"
  {
  }

  lemma Ordinal18691Group0Text()
    ensures Unwords(Texts([Small(18), Scale(0)])) == "eighteen thousand"
  {
    Ordinal18691Words4();
    Ordinal18691Text5();
  }

  lemma Ordinal18691Spoken1()
    ensures Spoken([[Small(18), Scale(0)]]) == "eighteen thousand"
  {
    Ordinal18691Group0Text();
    SpokenSingle([Small(18), Scale(0)]);
  }

  lemma Ordinal18691Words8()
    ensures Texts([Small(6), Hundred, And, Tens(9), Ordinal(Small(1))]) == ["six", "hundred", "and", "ninety", "first"]
  {
    Ordinal1Ordinal1();
    assert WordText(Small(6)) == "six";
    assert WordText(Hundred) == "hundred";
    assert WordText(And) == "and";
    assert WordText(Tens(9)) == "ninety";
    assert WordText(Small(1)) == "one";
    assert WordText(Ordinal(Small(1))) == "first";
  }

  lemma Ordinal18691Text9_4()
    ensures Unwords(["six", "hundred", "and", "ninety"]) == "six hundred and ninety"
  {
    Hundreds666Text6_3();
    JoinWithAppend(" ", ["six", "hundred", "and"], "ninety");
    assert ["six", "hundred", "and"] + ["ninety"] == ["six", "hundred", "and", "ninety"];
    assert "six hundred and" + " " + "ninety" == "six hundred and ninety";
  }

  lemma Ordinal18691Text10_5()
    ensures Unwords(["six", "hundred", "and", "ninety", "first"]) == "six hundred and ninety first"
  {
    Ordinal18691Text9_4();
    JoinWithAppend(" ", ["six", "hundred", "and", "ninety"], "first");
    assert ["six", "hundred", "and", "ninety"] + ["first"] == ["six", "hundred", "and", "ninety", "first"];
    assert "six hundred and ninety" + " " + "first" == "six hundred and ninety first";
  }

  lemma Ordinal18691Group1Text()
    ensures Unwords(Texts([Small(6), Hundred, And, Tens(9), Ordinal(Small(1))])) == "six hundred and ninety first"
  {
    Ordinal18691Words8();
    Ordinal18691Text10_5();
  }

  lemma Ordinal18691Spoken2()
    ensures Spoken([[Small(18), Scale(0)], [Small(6), Hundred, And, Tens(9), Ordinal(Small(1))]]) == "eighteen thousand" + ", " + "six hundred and ninety first"
  {
    Ordinal18691Spoken1();
    Ordinal18691Group1Text();
    SpokenSnoc([[Small(18), Scale(0)], [Small(6), Hundred, And, Tens(9), Ordinal(Small(1))]]);
    assert [[Small(18), Scale(0)], [Small(6), Hundred, And, Tens(9), Ordinal(Small(1))]][..1] == [[Small(18), Scale(0)]];
  }

  lemma Ordinal18691Joined()
    ensures "eighteen thousand" + ", " + "six hundred and ninety first" == "eighteen thousand, six hundred and ninety first"
  {
  }

  /** Ordinals (test/test_format.py:370): eighteen thousand, six hundred and ninety first. */
  lemma Ordinal18691()
    ensures Reading(18691, true, true) == [[Small(18), Scale(0)], [Small(6), Hundred, And, Tens(9), Ordinal(Small(1))]]
    ensures PronounceNumber(18691, true, true) == Spelled("eighteen thousand, six hundred and ninety first")
  {
    Ordinal18691Magnitude();
    Ordinal18691Ordinalize();
    Ordinal18691Spoken2();
    Ordinal18691Joined();
    assert Cardinal(18691, true) == [[Small(18), Scale(0)], [Small(6), Hundred, And, Tens(9), Small(1)]];
  }

  lemma Ordinal1567Group567_0()
    ensures ShortGroup(567, 0) == [[Small(5), Hundred, And, Tens(6), Small(7)]]
  {
    assert SubHundred(67) == [Tens(6), Small(7)];
    assert SubThousand(567) == [Small(5), Hundred, And, Tens(6), Small(7)];
  }

  lemma Ordinal1567Magnitude()
    ensures Magnitude(1567, true) == [[Small(1), Scale(0)], [Small(5), Hundred, And, Tens(6), Small(7)]]
  {
    Ordinal1000Group1_1();
    Ordinal1567Group567_0();
    assert ShortGroups(1, 1) == [[Small(1), Scale(0)]];
    assert ShortGroups(1567, 0) == [[Small(1), Scale(0)], [Small(5), Hundred, And, Tens(6), Small(7)]];
  }

  lemma Ordinal1567Ordinalize()
    ensures Ordinalize([[Small(1), Scale(0)], [Small(5), Hundred, And, Tens(6), Small(7)]]) == [[Small(1), Scale(0)], [Small(5), Hundred, And, Tens(6), Ordinal(Small(7))]]
  {
    assert [Small(5), Hundred, And, Tens(6)] + [Ordinal(Small(7))] == [Small(5), Hundred, And, Tens(6), Ordinal(Small(7))];
    assert Ordinalize([[Small(1), Scale(0)], [Small(5), Hundred, And, Tens(6), Small(7)]])[1] == [Small(5), Hundred, And, Tens(6), Ordinal(Small(7))];
  }

  lemma Ordinal1567Words3()
    ensures Texts([Small(1), Scale(0)]) == ["one", "thousand"]
  {
    assert WordText(Small(1)) == "one";
    assert WordText(Scale(0)) == "thousand";
  }

  lemma Ordinal1567Text4()
    ensures Unwords(["one", "thousand"]) == "one thousand"
  {
  }

  lemma Ordinal1567Group0Text()
    ensures Unwords(Texts([Small(1), Scale(0)])) == "one thousand"
  {
    Ordinal1567Words3();
    Ordinal1567Text4();
  }

  lemma Ordinal1567Spoken1()
    ensures Spoken([[Small(1), Scale(0)]]) == "one thousand"
  {
    Ordinal1567Group0Text();
    SpokenSingle([Small(1), Scale(0)]);
  }

  lemma Ordinal1567Words7()
    ensures Texts([Small(5), Hundred, And, Tens(6), Ordinal(Small(7))]) == ["five", "hundred", "and", "sixty", "seventh"]
  {
    Ordinal27Ordinal1();
    assert WordText(Small(5)) == "five";
    assert WordText(Hundred) == "hundred";
    assert WordText(And) == "and";
    assert WordText(Tens(6)) == "sixty";
    assert WordText(Small(7)) == "seven";
    assert WordText(Ordinal(Small(7))) == "seventh";
  }

  lemma Ordinal1567Text8_4()
    ensures Unwords(["five", "hundred", "and", "sixty"]) == "five hundred and sixty"
  {
    Hundreds1512457Text10_3();
    JoinWithAppend(" ", ["five", "hundred", "and"], "sixty");
    assert ["five", "hundred", "and"] + ["sixty"] == ["five", "hundred", "and", "sixty"];
    assert "five hundred and" + " " + "sixty" == "five hundred and sixty";
  }

  lemma Ordinal1567Text9_5()
    ensures Unwords(["five", "hundred", "and", "sixty", "seventh"]) == "five hundred and sixty seventh"
  {
    Ordinal1567Text8_4();
    JoinWithAppend(" ", ["five", "hundred", "and", "sixty"], "seventh");
    assert ["five", "hundred", "and", "sixty"] + ["seventh"] == ["five", "hundred", "and", "sixty", "seventh"];
    assert "five hundred and sixty" + " " + "seventh" == "five hundred and sixty seventh";
  }

  lemma Ordinal1567Group1Text()
    ensures Unwords(Texts([Small(5), Hundred, And, Tens(6), Ordinal(Small(7))])) == "five hundred and sixty seventh"
  {
    Ordinal1567Words7();
    Ordinal1567Text9_5();
  }

  lemma Ordinal1567Spoken2()
    ensures Spoken([[Small(1), Scale(0)], [Small(5), Hundred, And, Tens(6), Ordinal(Small(7))]]) == "one thousand" + ", " + "five hundred and sixty seventh"
  {
    Ordinal1567Spoken1();
    Ordinal1567Group1Text();
    SpokenSnoc([[Small(1), Scale(0)], [Small(5), Hundred, And, Tens(6), Ordinal(Small(7))]]);
    assert [[Small(1), Scale(0)], [Small(5), Hundred, And, Tens(6), Ordinal(Small(7))]][..1] == [[Small(1), Scale(0)]];
  }

  lemma Ordinal1567Joined()
    ensures "one thousand" + ", " + "five hundred and sixty seventh" == "one thousand, five hundred and sixty seventh"
  {
  }

  /** Ordinals (test/test_format.py:372): one thousand, five hundred and sixty seventh. */
  lemma Ordinal1567()
    ensures Reading(1567, true, true) == [[Small(1), Scale(0)], [Small(5), Hundred, And, Tens(6), Ordinal(Small(7))]]
    ensures PronounceNumber(1567, true, true) == Spelled("one thousand, five hundred and sixty seventh")
  {
    Ordinal1567Magnitude();
    Ordinal1567Ordinalize();
    Ordinal1567Spoken2();
    Ordinal1567Joined();
    assert Cardinal(1567, true) == [[Small(1), Scale(0)], [Small(5), Hundred, And, Tens(6), Small(7)]];
  }

  lemma Ordinal18000000Group18_2()
    ensures ShortGroup(18, 2) == [[Small(18), Scale(1)]]
  {
    assert SubThousand(18) == [Small(18)];
    assert SubThousand(18) + [Scale(1)] == [Small(18), Scale(1)];
  }

  lemma Ordinal18000000Magnitude()
    ensures Magnitude(18000000, true) == [[Small(18), Scale(1)]]
  {
    Ordinal18000000Group18_2();
    assert ShortGroups(18, 2) == [[Small(18), Scale(1)]];
    assert ShortGroups(18000, 1) == [[Small(18), Scale(1)]];
    assert ShortGroups(18000000, 0) == [[Small(18), Scale(1)]];
  }

  lemma Ordinal18000000Ordinalize()
    ensures Ordinalize([[Small(18), Scale(1)]]) == [[Small(18), Ordinal(Scale(1))]]
  {
    assert [Small(18)] + [Ordinal(Scale(1))] == [Small(18), Ordinal(Scale(1))];
    assert Ordinalize([[Small(18), Scale(1)]])[0] == [Small(18), Ordinal(Scale(1))];
  }

  lemma Ordinal18000000Ordinal3()
    ensures OrdinalWord("million") == "millionth"
  {
  }

  lemma Ordinal18000000Words4()
    ensures Texts([Small(18), Ordinal(Scale(1))]) == ["eighteen", "millionth"]
  {
    Ordinal18000000Ordinal3();
    assert WordText(Small(18)) == "eighteen";
    assert WordText(Scale(1)) == "million";
    assert WordText(Ordinal(Scale(1))) == "millionth";
  }

  lemma Ordinal18000000Text5()
    ensures Unwords(["eighteen", "millionth"]) == "eighteen millionth"
  {
  }

  /** Ordinals (test/test_format.py:378): eighteen millionth. */
  lemma Ordinal18000000()
    ensures Reading(18000000, true, true) == [[Small(18), Ordinal(Scale(1))]]
    ensures PronounceNumber(18000000, true, true) == Spelled("eighteen millionth")
  {
    Ordinal18000000Magnitude();
    Ordinal18000000Ordinalize();
    Ordinal18000000Words4();
    Ordinal18000000Text5();
    assert Cardinal(18000000, true) == [[Small(18), Scale(1)]];
    SpokenSingle([Small(18), Ordinal(Scale(1))]);
  }

  lemma Ordinal18000000000000LongGroup18_0()
    ensures ShortGroup(18, 0) == [[Small(18)]]
  {
    assert SubThousand(18) == [Small(18)];
  }

  lemma Ordinal18000000000000LongChunk18_2()
    ensures LongChunk(18, 2) == [[Small(18), Scale(2)]]
  {
    Ordinal18000000000000LongGroup18_0();
    assert ShortGroups(18, 0) == [[Small(18)]];
    assert Flatten([[Small(18)]]) == [Small(18)];
    assert [Small(18)] + [Scale(2)] == [Small(18), Scale(2)];
  }

  lemma Ordinal18000000000000LongMagnitude()
    ensures Magnitude(18000000000000, false) == [[Small(18), Scale(2)]]
  {
    Ordinal18000000000000LongChunk18_2();
    assert LongGroups(18000000, 1) == [[Small(18), Scale(2)]];
    assert LongGroups(18000000000000, 0) == [[Small(18), Scale(2)]];
  }

  lemma Ordinal18000000000000LongOrdinalize()
    ensures Ordinalize([[Small(18), Scale(2)]]) == [[Small(18), Ordinal(Scale(2))]]
  {
    assert [Small(18)] + [Ordinal(Scale(2))] == [Small(18), Ordinal(Scale(2))];
    assert Ordinalize([[Small(18), Scale(2)]])[0] == [Small(18), Ordinal(Scale(2))];
  }

  lemma Ordinal18000000000000LongOrdinal4()
    ensures OrdinalWord("billion") == "billionth"
  {
  }

  lemma Ordinal18000000000000LongWords5()
    ensures Texts([Small(18), Ordinal(Scale(2))]) == ["eighteen", "billionth"]
  {
    Ordinal18000000000000LongOrdinal4();
    assert WordText(Small(18)) == "eighteen";
    assert WordText(Scale(2)) == "billion";
    assert WordText(Ordinal(Scale(2))) == "billionth";
  }

  lemma Ordinal18000000000000LongText6()
    ensures Unwords(["eighteen", "billionth"]) == "eighteen billionth"
  {
  }

  /** Ordinals, long scale (test/test_format.py:380): eighteen billionth. */
  lemma Ordinal18000000000000Long()
    ensures Reading(18000000000000, false, true) == [[Small(18), Ordinal(Scale(2))]]
    ensures PronounceNumber(18000000000000, false, true) == Spelled("eighteen billionth")
  {
    Ordinal18000000000000LongMagnitude();
    Ordinal18000000000000LongOrdinalize();
    Ordinal18000000000000LongWords5();
    Ordinal18000000000000LongText6();
    assert Cardinal(18000000000000, false) == [[Small(18), Scale(2)]];
    SpokenSingle([Small(18), Ordinal(Scale(2))]);
  }

  lemma Ordinal18000000000000Group18_4()
    ensures ShortGroup(18, 4) == [[Small(18), Scale(3)]]
  {
    assert SubThousand(18) == [Small(18)];
    assert SubThousand(18) + [Scale(3)] == [Small(18), Scale(3)];
  }

  lemma Ordinal18000000000000Magnitude()
    ensures Magnitude(18000000000000, true) == [[Small(18), Scale(3)]]
  {
    Ordinal18000000000000Group18_4();
    assert ShortGroups(18, 4) == [[Small(18), Scale(3)]];
    assert ShortGroups(18000, 3) == [[Small(18), Scale(3)]];
    assert ShortGroups(18000000, 2) == [[Small(18), Scale(3)]];
    assert ShortGroups(18000000000, 1) == [[Small(18), Scale(3)]];
    assert ShortGroups(18000000000000, 0) == [[Small(18), Scale(3)]];
  }

  lemma Ordinal18000000000000Ordinalize()
    ensures Ordinalize([[Small(18), Scale(3)]]) == [[Small(18), Ordinal(Scale(3))]]
  {
    assert [Small(18)] + [Ordinal(Scale(3))] == [Small(18), Ordinal(Scale(3))];
    assert Ordinalize([[Small(18), Scale(3)]])[0] == [Small(18), Ordinal(Scale(3))];
  }

  lemma Ordinal18000000000000Ordinal3()
    ensures OrdinalWord("trillion") == "trillionth"
  {
  }

  lemma Ordinal18000000000000Words4()
    ensures Texts([Small(18), Ordinal(Scale(3))]) == ["eighteen", "trillionth"]
  {
    Ordinal18000000000000Ordinal3();
    assert WordText(Small(18)) == "eighteen";
    assert WordText(Scale(3)) == "trillion";
    assert WordText(Ordinal(Scale(3))) == "trillionth";
  }

  lemma Ordinal18000000000000Text5()
    ensures Unwords(["eighteen", "trillionth"]) == "eighteen trillionth"
  {
  }

  /** Ordinals (test/test_format.py:383): eighteen trillionth. */
  lemma Ordinal18000000000000()
    ensures Reading(18000000000000, true, true) == [[Small(18), Ordinal(Scale(3))]]
    ensures PronounceNumber(18000000000000, true, true) == Spelled("eighteen trillionth")
  {
    Ordinal18000000000000Magnitude();
    Ordinal18000000000000Ordinalize();
    Ordinal18000000000000Words4();
    Ordinal18000000000000Text5();
    assert Cardinal(18000000000000, true) == [[Small(18), Scale(3)]];
    SpokenSingle([Small(18), Ordinal(Scale(3))]);
  }

  lemma Ordinal18000000000000000000LongChunk18_3()
    ensures LongChunk(18, 3) == [[Small(18), Scale(3)]]
  {
    Ordinal18000000000000LongGroup18_0();
    assert ShortGroups(18, 0) == [[Small(18)]];
    assert Flatten([[Small(18)]]) == [Small(18)];
    assert [Small(18)] + [Scale(3)] == [Small(18), Scale(3)];
  }

  lemma Ordinal18000000000000000000LongMagnitude()
    ensures Magnitude(18000000000000000000, false) == [[Small(18), Scale(3)]]
  {
    Ordinal18000000000000000000LongChunk18_3();
    assert LongGroups(18000000, 2) == [[Small(18), Scale(3)]];
    assert LongGroups(18000000000000, 1) == [[Small(18), Scale(3)]];
    assert LongGroups(18000000000000000000, 0) == [[Small(18), Scale(3)]];
  }

  /** Ordinals, long scale (test/test_format.py:385): eighteen trillionth. */
  lemma Ordinal18000000000000000000Long()
    ensures Reading(18000000000000000000, false, true) == [[Small(18), Ordinal(Scale(3))]]
    ensures PronounceNumber(18000000000000000000, false, true) == Spelled("eighteen trillionth")
  {
    Ordinal18000000000000000000LongMagnitude();
    Ordinal18000000000000Ordinalize();
    Ordinal18000000000000Words4();
    Ordinal18000000000000Text5();
    assert Cardinal(18000000000000000000, false) == [[Small(18), Scale(3)]];
    SpokenSingle([Small(18), Ordinal(Scale(3))]);
  }
}
