/** What the numeral readings promise across all inputs: the sign word,
    agreement of the two scales below a billion, omitted zero groups and the
    decimal places. */
module NumeralLaws {
  import opened Text
  import opened EnglishWords
  import opened Numerals

  /** "minus" in front of the first group is "minus " in front of the text. */
  lemma SignedSpoken(gs: seq<Phrase>)
    requires gs != [] && NonEmptyGroups(gs)
    ensures Spoken(Signed(gs)) == "minus " + Spoken(gs)
  {
    var r := Signed(gs);
    var ts, us := Render(r), Render(gs);
    SignedFirstGroup(gs);
    assert ts[1..] == us[1..] by {
      forall k | 0 <= k < |ts| - 1
        ensures ts[1..][k] == us[1..][k]
      {
        assert r[k + 1] == gs[k + 1];
      }
    }
    PrefixFirstGroup("minus ", ts, us);
  }

  /** The signed first group reads "minus " and then the group. */
  lemma SignedFirstGroup(gs: seq<Phrase>)
    requires gs != [] && NonEmptyGroups(gs)
    ensures Unwords(Texts(Signed(gs)[0])) == "minus " + Unwords(Texts(gs[0]))
  {
    var g := Texts(gs[0]);
    assert Texts(Signed(gs)[0]) == ["minus"] + g;
    assert (["minus"] + g)[1..] == g;
  }

  /** Prefixing the first of the joined groups prefixes the whole text. */
  lemma PrefixFirstGroup(p: string, ts: seq<string>, us: seq<string>)
    requires |ts| == |us| > 0 && ts[0] == p + us[0] && ts[1..] == us[1..]
    ensures JoinWith(", ", ts) == p + JoinWith(", ", us)
  {
    if |us| > 1 {
      calc {
        JoinWith(", ", ts);
        ts[0] + ", " + JoinWith(", ", ts[1..]);
        (p + us[0]) + ", " + JoinWith(", ", us[1..]);
        p + (us[0] + ", " + JoinWith(", ", us[1..]));
        p + JoinWith(", ", us);
      }
    }
  }

  /** A negative integer reads as "minus " followed by the general cardinal
      of its magnitude, and so as "minus " followed by the reading of its
      magnitude wherever that is not the colloquial four-digit form. */
  lemma NegativeReadsMinus(n: int, shortScale: bool)
    requires n > 0 && InRange(n, shortScale)
    ensures PronounceNumber(-n, shortScale, false).Spelled?
    ensures PronounceNumber(-n, shortScale, false).text == "minus " + Spoken(Cardinal(n, shortScale))
    ensures Colloquial(n).None? ==>
      PronounceNumber(-n, shortScale, false).text == "minus " + PronounceNumber(n, shortScale, false).text
  {
    assert InRange(-n, shortScale);
    SignedSpoken(Magnitude(n, shortScale));
  }

  /** The arithmetic that lines up a number's thousands with its millions. */
  lemma ChunkDigits(n: nat)
    ensures (n / 1000) / 1000 == n / 1000000
    ensures (n / 1000) % 1000 == (n % 1000000) / 1000
    ensures n % 1000 == (n % 1000000) % 1000
  {
    var h, z := n / 1000000, n % 1000000;
    var a, b := z / 1000, z % 1000;
    assert n == (h * 1000 + a) * 1000 + b;
    assert n / 1000 == h * 1000 + a;
  }

  /** Every number below a billion can be named under both scales. */
  lemma BelowBillionInRange(n: int)
    requires Abs(n) < 1000000000
    ensures InRange(n, true) && InRange(n, false)
  {
    assert Pow(1000, 3) == 1000000000;
    assert Pow(1000000, 2) == 1000000000000;
    GroupCountBound(Abs(n), 1000, 3);
    GroupCountBound(Abs(n), 1000000, 2);
  }

  /** Short and long scale name every magnitude below a billion alike. */
  lemma ScalesAgreeOnMagnitude(n: nat)
    requires n < 1000000000
    ensures InRange(n, true) && InRange(n, false)
    ensures Magnitude(n, true) == Magnitude(n, false)
  {
    BelowBillionInRange(n);
    if n >= 1000000 {
      var h, z, m := n / 1000000, n % 1000000, n / 1000;
      ChunkDigits(n);
      var top := SubThousand(h) + [Scale(1)];
      assert Flatten([SubThousand(h)]) == SubThousand(h);
      assert LongGroups(n, 0) == [top] + LongChunk(z, 0);
      assert ShortGroups(m, 1) == [top] + ShortGroup(z / 1000, 1);
      assert ShortGroups(n, 0) == [top] + ShortGroup(z / 1000, 1) + ShortGroup(z % 1000, 0);
      if z >= 1000 {
        assert ShortGroups(z, 0) == ShortGroup(z / 1000, 1) + ShortGroup(z % 1000, 0);
      } else if z > 0 {
        assert ShortGroup(z / 1000, 1) == [];
      }
    }
  }

  /** Below 10^9 the `short_scale` switch does not change the reading. */
  lemma ScalesAgreeBelowBillion(n: int, ordinals: bool)
    requires Abs(n) < 1000000000
    ensures PronounceNumber(n, true, ordinals) == PronounceNumber(n, false, ordinals)
  {
    ScalesAgreeOnMagnitude(Abs(n));
  }

  lemma {:induction false} NoZeroInShortGroups(n: nat, i: nat)
    requires i + GroupCount(n, 1000) <= |ScaleNames| + 1
    ensures Small(0) !in Flatten(ShortGroups(n, i))
    decreases n
  {
    if n >= 1000 {
      NoZeroInShortGroups(n / 1000, i + 1);
      NoZeroInShortGroup(n % 1000, i);
      FlattenAppend(ShortGroups(n / 1000, i + 1), ShortGroup(n % 1000, i));
    } else if n > 0 {
      NoZeroInShortGroup(n, i);
    }
  }

  /** A single group never says "zero". */
  lemma NoZeroInShortGroup(z: nat, i: nat)
    requires z < 1000 && i <= ScaleCount
    ensures Small(0) !in Flatten(ShortGroup(z, i))
  {
    if z != 0 {
      assert Flatten(ShortGroup(z, i)) == ShortGroup(z, i)[0];
      NoZeroBelowThousand(z);
    }
  }

  /** 1..999 is read without the word "zero". */
  lemma NoZeroBelowThousand(z: nat)
    requires 1 <= z < 1000
    ensures Small(0) !in SubThousand(z)
  {
    if z >= 100 && z % 100 != 0 {
      assert Small(0) !in SubHundred(z % 100);
    }
  }

  lemma {:induction false} NoZeroInLongGroups(n: nat, j: nat)
    requires j + GroupCount(n, 1000000) <= |ScaleNames|
    ensures Small(0) !in Flatten(LongGroups(n, j))
    decreases n
  {
    if n >= 1000000 {
      NoZeroInLongGroups(n / 1000000, j + 1);
      FlattenAppend(LongGroups(n / 1000000, j + 1), LongChunk(n % 1000000, j));
    }
    var z := if n < 1000000 then n else n % 1000000;
    if z != 0 {
      assert GroupCount(z, 1000) <= 2 by {
        assert z / 1000 / 1000 == 0;
      }
      NoZeroInShortGroups(z, 0);
      if j != 0 {
        var c := Flatten(ShortGroups(z, 0)) + [Scale(j)];
        assert Flatten(LongChunk(z, j)) == c;
      }
    }
  }

  lemma FlattenSigned(gs: seq<Phrase>)
    requires gs != [] && NonEmptyGroups(gs)
    ensures Flatten(Signed(gs)) == [Minus] + Flatten(gs)
  {
    var r := Signed(gs);
    assert Flatten(r) == r[0] + Flatten(r[1..]);
    assert Flatten(gs) == gs[0] + Flatten(gs[1..]);
  }

  /** Groups that are zero are left out rather than read: the word "zero"
      never occurs in the reading of a non-zero integer. */
  lemma ZeroGroupsOmitted(n: int, shortScale: bool)
    requires n != 0 && InRange(n, shortScale)
    ensures Small(0) !in Flatten(Cardinal(n, shortScale))
  {
    var m := Abs(n);
    assert Small(0) !in Flatten(Magnitude(m, shortScale)) by {
      if shortScale {
        NoZeroInShortGroups(m, 0);
      } else {
        NoZeroInLongGroups(m, 0);
      }
    }
    if n < 0 {
      FlattenSigned(Magnitude(m, shortScale));
    }
  }

  /** A value with nothing after the point, or read with no places, reads
      as the general cardinal of its integer value. */
  lemma WholeDecimalIsCardinal(d: Decimal, places: nat, shortScale: bool)
    requires WellFormed(d) && InRange(d.whole, shortScale)
    requires d.fraction == [] || places == 0
    requires d.negative ==> d.whole != 0
    ensures var v: int := if d.negative then 0 - d.whole else d.whole;
      InRange(v, shortScale) && DecimalReading(d, places, shortScale) == Cardinal(v, shortScale)
  {
  }

  /** Asking for more places than there are digits reads every digit and
      nothing more. */
  lemma ExtraPlacesChangeNothing(d: Decimal, places: nat, shortScale: bool)
    requires WellFormed(d) && InRange(d.whole, shortScale)
    requires places >= |d.fraction|
    ensures DecimalReading(d, places, shortScale) == DecimalReading(d, |d.fraction|, shortScale)
  {
  }

  /** The words of a decimal reading, in order: "minus" when negative, the
      cardinal of the whole part, then "point" and one word per shown digit. */
  lemma DecimalWords(d: Decimal, places: nat, shortScale: bool)
    requires WellFormed(d) && InRange(d.whole, shortScale)
    ensures var shown := Shown(d, places);
      Flatten(DecimalReading(d, places, shortScale)) ==
        (if d.negative then [Minus] else []) + Flatten(Cardinal(d.whole, shortScale)) +
        (if shown == [] then [] else [Point] + DigitNames(shown))
  {
    var c := Cardinal(d.whole, shortScale);
    var whole := if d.negative then Signed(c) else c;
    var shown := Shown(d, places);
    var tail: Phrase := if shown == [] then [] else [Point] + DigitNames(shown);
    var gs := DecimalReading(d, places, shortScale);
    var k := |whole| - 1;
    FlattenExtendLast(whole, gs, tail);
    var sign: Phrase := if d.negative then [Minus] else [];
    assert Flatten(whole) == sign + Flatten(c) by {
      if d.negative {
        FlattenSigned(c);
      } else {
        assert sign + Flatten(c) == Flatten(c);
      }
    }
    assert Flatten(gs) == sign + Flatten(c) + tail;
  }

  /** How a decimal reading sounds: "minus " when negative, the spoken
      cardinal of the whole part, then " point " and the digit words. */
  lemma DecimalSpoken(d: Decimal, places: nat, shortScale: bool)
    requires WellFormed(d) && InRange(d.whole, shortScale)
    ensures var shown := Shown(d, places);
      PronounceDecimal(d, places, shortScale) == Spelled(
        (if d.negative then "minus " else "") + Spoken(Cardinal(d.whole, shortScale)) +
        (if shown == [] then "" else " point " + Unwords(Texts(DigitNames(shown)))))
  {
    var c := Cardinal(d.whole, shortScale);
    var front := if d.negative then "minus " else "";
    PointSpoken(d, places, shortScale);
    if d.negative {
      SignedSpoken(c);
    } else {
      assert front + Spoken(c) == Spoken(c);
    }
  }

  /** The digits after the point are spoken after the signed whole part. */
  lemma PointSpoken(d: Decimal, places: nat, shortScale: bool)
    requires WellFormed(d) && InRange(d.whole, shortScale)
    ensures var c := Cardinal(d.whole, shortScale);
      var shown := Shown(d, places);
      Spoken(DecimalReading(d, places, shortScale)) ==
        Spoken(if d.negative then Signed(c) else c) +
        (if shown == [] then "" else " point " + Unwords(Texts(DigitNames(shown))))
  {
    var c := Cardinal(d.whole, shortScale);
    var whole := if d.negative then Signed(c) else c;
    var shown := Shown(d, places);
    var gs := DecimalReading(d, places, shortScale);
    var x := if shown == [] then "" else " point " + Unwords(Texts(DigitNames(shown)));
    if shown == [] {
      assert gs[|gs| - 1] == whole[|whole| - 1] + [];
      ExtendedSpoken(gs, whole, [], x);
    } else {
      var ds := DigitNames(shown);
      var tail := [Point] + ds;
      assert tail[1..] == ds;
      ExtendedSpoken(gs, whole, tail, x);
    }
  }

  /** Groups whose last group is extended by "point" and digit words are
      spoken as the original groups followed by " point " and the digits. */
  lemma ExtendedSpoken(gs: seq<Phrase>, whole: seq<Phrase>, tail: Phrase, x: string)
    requires |gs| == |whole| > 0 && NonEmptyGroups(whole)
    requires gs[..|gs| - 1] == whole[..|whole| - 1] && gs[|gs| - 1] == whole[|whole| - 1] + tail
    requires tail == [] ==> x == ""
    requires tail != [] ==> tail[0] == Point && tail[1..] != [] && x == " point " + Unwords(Texts(tail[1..]))
    ensures Spoken(gs) == Spoken(whole) + x
  {
    var k := |whole| - 1;
    RenderPrefix(gs, whole, k);
    PointGroup(gs, whole, tail, x);
    SuffixLastGroup(x, Render(gs), Render(whole));
  }

  /** The text of a last group that "point" and digit words extend. */
  lemma PointGroup(gs: seq<Phrase>, whole: seq<Phrase>, tail: Phrase, x: string)
    requires |gs| == |whole| > 0 && whole[|whole| - 1] != []
    requires gs[|gs| - 1] == whole[|whole| - 1] + tail
    requires tail == [] ==> x == ""
    requires tail != [] ==> tail[0] == Point && tail[1..] != [] && x == " point " + Unwords(Texts(tail[1..]))
    ensures Render(gs)[|gs| - 1] == Render(whole)[|whole| - 1] + x
  {
    var k := |whole| - 1;
    if tail == [] {
      assert gs[k] == whole[k];
    } else {
      assert tail == [Point] + tail[1..];
      DigitsAfterPoint(whole[k], tail[1..]);
    }
  }

  /** Groups that agree up to `k` are spoken alike up to `k`. */
  lemma RenderPrefix(gs: seq<Phrase>, hs: seq<Phrase>, k: nat)
    requires k <= |gs| && k <= |hs| && gs[..k] == hs[..k]
    ensures Render(gs)[..k] == Render(hs)[..k]
  {
    forall i | 0 <= i < k
      ensures Render(gs)[i] == Render(hs)[i]
    {
      assert gs[i] == gs[..k][i] && hs[i] == hs[..k][i];
    }
  }

  /** "point" and digit words put after a group extend its text. */
  lemma DigitsAfterPoint(g: Phrase, digits: Phrase)
    requires g != [] && digits != []
    ensures Unwords(Texts(g + ([Point] + digits))) ==
      Unwords(Texts(g)) + " point " + Unwords(Texts(digits))
  {
    PointTexts(g, digits);
    PointJoined(Texts(g), Texts(digits));
  }

  /** The words of a group with "point" and digits after it. */
  lemma PointTexts(g: Phrase, digits: Phrase)
    ensures Texts(g + ([Point] + digits)) == Texts(g) + (["point"] + Texts(digits))
  {
    TextsConcat(g, [Point] + digits);
    TextsConcat([Point], digits);
    assert Texts([Point]) == ["point"];
  }

  /** Joining words with "point" between two non-empty lists. */
  lemma PointJoined(a: seq<string>, b: seq<string>)
    requires a != [] && b != []
    ensures Unwords(a + (["point"] + b)) == Unwords(a) + " point " + Unwords(b)
  {
    JoinWithConcat(" ", a, ["point"] + b);
    JoinWithConcat(" ", ["point"], b);
    assert JoinWith(" ", ["point"]) == "point";
    AppendTwoParts(Unwords(a) + " ", "point", " ", Unwords(b));
  }

  /** Extending the last of the joined groups extends the whole text. */
  lemma SuffixLastGroup(x: string, ts: seq<string>, us: seq<string>)
    requires |ts| == |us| > 0
    requires ts[..|ts| - 1] == us[..|us| - 1] && ts[|ts| - 1] == us[|us| - 1] + x
    ensures JoinWith(", ", ts) == JoinWith(", ", us) + x
  {
    var k := |us| - 1;
    if k > 0 {
      assert ts == us[..k] + [us[k] + x];
      assert us == us[..k] + [us[k]];
      JoinWithAppend(", ", us[..k], us[k] + x);
      JoinWithAppend(", ", us[..k], us[k]);
    }
  }
}
