/** `extract_numbers` reading back what `pronounce_number` writes: for every
    number of one group (1..999, and the same after "minus"), the spoken
    text reads back as exactly that number. */
module ReadBack {
  import opened Options
  import opened Text
  import opened EnglishWords
  import opened Numerals
  import opened Extract

  /** The words a one-group reading is made of. */
  predicate Readable(w: Word)
  {
    w.Small? || w.Tens? || w.Hundred? || w.And? || w.Minus?
  }

  /** How the number reader takes each such word. */
  function TokenOf(w: Word): Token
  {
    match w
    case Small(k) => if k == 0 then ZeroWord else if k < 10 then UnitWord(k) else TeenWord(k)
    case Tens(t) => TensWord(10 * t)
    case Hundred => HundredWord
    case And => AndWord
    case Minus => SignWord
    case _ => OtherWord
  }

  function TokensOf(p: Phrase): (ts: seq<Token>)
    ensures |ts| == |p|
    ensures forall i :: 0 <= i < |p| ==> ts[i] == TokenOf(p[i])
  {
    seq(|p|, i requires 0 <= i < |p| => TokenOf(p[i]))
  }

  /** A non-empty run of lower-case letters. */
  predicate Letters(s: string)
  {
    s != [] && forall i :: 0 <= i < |s| ==> 'a' <= s[i] <= 'z'
  }

  lemma LettersArePlain(s: string)
    requires Letters(s)
    ensures IsWord(s) && Lower(s) == s
  {
    assert forall i :: 0 <= i < |s| ==> Lower(s)[i] == s[i];
  }

  lemma SmallNamesAreLetters(k: nat)
    requires k < 20
    ensures Letters(SmallNames[k])
  {
  }

  lemma TensNamesAreLetters(k: nat)
    requires k < 8
    ensures Letters(TensNames[k])
  {
  }

  /** Every readable word is spelled in lower-case letters. */
  lemma SpelledInLetters(w: Word)
    requires Readable(w)
    ensures IsWord(WordText(w)) && Lower(WordText(w)) == WordText(w)
  {
    match w
    case Small(k) => SmallNamesAreLetters(k); LettersArePlain(SmallNames[k]);
    case Tens(t) => TensNamesAreLetters(t - 2); LettersArePlain(TensNames[t - 2]);
    case Hundred => LettersArePlain("hundred");
    case And => LettersArePlain("and");
    case Minus => LettersArePlain("minus");
  }

  lemma NotTableWord(w: string)
    requires w !in SmallNames && w !in TensNames
    ensures SmallToken(w) == None && TensToken(w) == None
  {
  }

  lemma ClassifiesHundred(shortScale: bool)
    ensures Classify("hundred", shortScale) == HundredWord
  {
    assert "hundred" !in SmallNames && "hundred" !in TensNames;
    NotTableWord("hundred");
  }

  lemma ClassifiesAnd(shortScale: bool)
    ensures Classify("and", shortScale) == AndWord
  {
    assert "and" !in SmallNames && "and" !in TensNames;
    NotTableWord("and");
    assert ScaleWordIndex("and") == None;
  }

  lemma ClassifiesMinus(shortScale: bool)
    ensures Classify("minus", shortScale) == SignWord
  {
    assert "minus" !in SmallNames && "minus" !in TensNames;
    NotTableWord("minus");
    assert ScaleWordIndex("minus") == None;
  }

  /** The reader takes each readable word's spelling as `TokenOf` says. */
  lemma ClassifiesAs(w: Word, shortScale: bool)
    requires Readable(w)
    ensures Classify(WordText(w), shortScale) == TokenOf(w)
  {
    match w
    case Small(k) => SmallEntry(k);
    case Tens(t) => TensEntry(t);
    case Hundred => ClassifiesHundred(shortScale);
    case And => ClassifiesAnd(shortScale);
    case Minus => ClassifiesMinus(shortScale);
  }

  /** The spoken words of a readable group reach the reader as their tokens,
      whatever the letter case handling and the scale. */
  lemma TextReadsAsTokens(p: Phrase, shortScale: bool)
    requires forall i :: 0 <= i < |p| ==> Readable(p[i])
    ensures ExtractNumbers(Unwords(Texts(p)), shortScale) == Scan(TokensOf(p), None, false)
  {
    var ws := Texts(p);
    forall i | 0 <= i < |p|
      ensures IsWord(ws[i]) && Lower(ws[i]) == ws[i] && Classify(ws[i], shortScale) == TokenOf(p[i])
    {
      SpelledInLetters(p[i]);
      ClassifiesAs(p[i], shortScale);
    }
    WordsUnwords(ws);
    WordsLower(Unwords(ws));
    assert MapLower(ws) == ws;
    TokensOfReadings(ws, TokensOf(p), shortScale);
  }

  function SignedNat(negative: bool, v: nat): int
  {
    if negative then -(v as int) else v
  }

  // One step of the reader at a time.

  /** A number word with no run open starts one. */
  lemma ScanStarts(t: Token, rest: seq<Token>, negative: bool)
    requires IsNumber(t)
    ensures Scan([t] + rest, None, negative) == Scan(rest, Some(Start(t, negative)), false)
  {
    assert ([t] + rest)[0] == t && ([t] + rest)[1..] == rest;
  }

  /** A word that follows the run's last word extends it. */
  lemma ScanContinues(r: Run, t: Token, rest: seq<Token>)
    requires Follows(r.last, t)
    ensures Scan([t] + rest, Some(r), false) == Scan(rest, Some(Add(r, t)), false)
  {
    assert ([t] + rest)[0] == t && ([t] + rest)[1..] == rest;
  }

  /** "and" after "hundred" is passed over when the next word continues. */
  lemma ScanPassesAnd(r: Run, rest: seq<Token>)
    requires r.last.HundredWord? && rest != [] && Follows(r.last, rest[0])
    ensures Scan([AndWord] + rest, Some(r), false) == Scan(rest, Some(r), false)
  {
    var ts := [AndWord] + rest;
    assert ts[0] == AndWord && ts[1..] == rest && ts[1] == rest[0];
    assert !Follows(r.last, AndWord);
  }

  /** At the end of the words the open run is closed. */
  lemma ScanCloses(r: Run)
    ensures Scan([], Some(r), false) == [SignedNat(r.negative, r.total + r.part)]
  {
  }

  /** A unit, teen or tens word adds its value to the group. */
  lemma AddsValue(r: Run, t: Token)
    requires t.UnitWord? || t.TeenWord? || t.TensWord?
    ensures Add(r, t) == Run(r.total, r.part + t.v, t, r.negative)
  {
  }

  /** "hundred" after the unit `h` makes the group 100 * h. */
  lemma HundredsRun(h: nat, negative: bool)
    requires 1 <= h <= 9
    ensures Add(Start(UnitWord(h), negative), HundredWord) == Run(0, 100 * h, HundredWord, negative)
  {
    var s := Start(UnitWord(h), negative);
    AddsValue(Run(0, 0, UnitWord(h), negative), UnitWord(h));
    assert s == Run(0, h, UnitWord(h), negative);
    assert Extract.AtLeastOne(s.part) == h;
    assert h * 100 == 100 * h;
  }

  /** The tokens of 1..99: one word, or a tens word and a unit word. */
  lemma SubHundredTokens(m: nat)
    requires 1 <= m < 100
    ensures m < 20 || m % 10 == 0 ==>
      TokensOf(SubHundred(m)) == [TokenOf(SubHundred(m)[0])] && TokenOf(SubHundred(m)[0]).v == m
    ensures m >= 20 && m % 10 != 0 ==>
      TokensOf(SubHundred(m)) == [TensWord(10 * (m / 10)), UnitWord(m % 10)]
    ensures m < 20 ==> TokenOf(SubHundred(m)[0]).UnitWord? || TokenOf(SubHundred(m)[0]).TeenWord?
    ensures m >= 20 ==> TokenOf(SubHundred(m)[0]).TensWord?
  {
  }

  /** After "hundred", the words of 1..99 add their value to the group. */
  lemma ScanSubHundredAfter(r: Run, m: nat)
    requires 1 <= m < 100 && r.last.HundredWord?
    ensures Scan(TokensOf(SubHundred(m)), Some(r), false) == [SignedNat(r.negative, r.total + r.part + m)]
  {
    SubHundredTokens(m);
    if m < 20 || m % 10 == 0 {
      var t := TokenOf(SubHundred(m)[0]);
      assert [t] == [t] + [];
      ScanContinues(r, t, []);
      AddsValue(r, t);
      ScanCloses(Add(r, t));
    } else {
      var t0, t1 := TensWord(10 * (m / 10)), UnitWord(m % 10);
      assert [t0, t1] == [t0] + [t1] && [t1] == [t1] + [];
      ScanContinues(r, t0, [t1]);
      AddsValue(r, t0);
      var r0 := Add(r, t0);
      ScanContinues(r0, t1, []);
      AddsValue(r0, t1);
      ScanCloses(Add(r0, t1));
    }
  }

  /** Read from the start of a run, the words of 1..99 give their value. */
  lemma ScanSubHundred(m: nat, negative: bool)
    requires 1 <= m < 100
    ensures Scan(TokensOf(SubHundred(m)), None, negative) == [SignedNat(negative, m)]
  {
    SubHundredTokens(m);
    if m < 20 || m % 10 == 0 {
      var t := TokenOf(SubHundred(m)[0]);
      assert [t] == [t] + [];
      ScanStarts(t, [], negative);
      AddsValue(Run(0, 0, t, negative), t);
      ScanCloses(Start(t, negative));
    } else {
      var t0, t1 := TensWord(10 * (m / 10)), UnitWord(m % 10);
      assert [t0, t1] == [t0] + [t1] && [t1] == [t1] + [];
      ScanStarts(t0, [t1], negative);
      AddsValue(Run(0, 0, t0, negative), t0);
      var r0 := Start(t0, negative);
      ScanContinues(r0, t1, []);
      AddsValue(r0, t1);
      ScanCloses(Add(r0, t1));
    }
  }

  /** "two hundred": the hundreds word multiplies the unit before it. */
  lemma ScanHundreds(h: nat, negative: bool)
    requires 1 <= h <= 9
    ensures Scan([UnitWord(h), HundredWord], None, negative) == [SignedNat(negative, 100 * h)]
  {
    var s := Start(UnitWord(h), negative);
    assert [UnitWord(h), HundredWord] == [UnitWord(h)] + [HundredWord];
    assert [HundredWord] == [HundredWord] + [];
    ScanStarts(UnitWord(h), [HundredWord], negative);
    ScanContinues(s, HundredWord, []);
    HundredsRun(h, negative);
    ScanCloses(Add(s, HundredWord));
  }

  /** "six hundred and sixty six": "and" is passed over and the rest is
      added to the hundreds. */
  lemma ScanHundredsAnd(h: nat, m: nat, negative: bool)
    requires 1 <= h <= 9 && 1 <= m < 100
    ensures Scan([UnitWord(h), HundredWord, AndWord] + TokensOf(SubHundred(m)), None, negative)
            == [SignedNat(negative, 100 * h + m)]
  {
    var rest := TokensOf(SubHundred(m));
    var s := Start(UnitWord(h), negative);
    var r := Add(s, HundredWord);
    assert [UnitWord(h), HundredWord, AndWord] + rest == [UnitWord(h)] + ([HundredWord] + ([AndWord] + rest));
    ScanStarts(UnitWord(h), [HundredWord] + ([AndWord] + rest), negative);
    ScanContinues(s, HundredWord, [AndWord] + rest);
    HundredsRun(h, negative);
    SubHundredTokens(m);
    assert Follows(HundredWord, rest[0]);
    ScanPassesAnd(r, rest);
    ScanSubHundredAfter(r, m);
  }

  /** The words of 1..999 read back as that number, negated when a sign
      word came just before. */
  lemma ScanSubThousand(n: nat, negative: bool)
    requires 1 <= n < 1000
    ensures Scan(TokensOf(SubThousand(n)), None, negative) == [SignedNat(negative, n)]
  {
    if n < 100 {
      ScanSubHundred(n, negative);
    } else if n % 100 == 0 {
      assert TokensOf(SubThousand(n)) == [UnitWord(n / 100), HundredWord];
      ScanHundreds(n / 100, negative);
    } else {
      assert TokensOf(SubThousand(n)) == [UnitWord(n / 100), HundredWord, AndWord] + TokensOf(SubHundred(n % 100));
      ScanHundredsAnd(n / 100, n % 100, negative);
    }
  }

  /** A sign word opens the next run negative. */
  lemma ScanAfterSign(ts: seq<Token>)
    ensures Scan([SignWord] + ts, None, false) == Scan(ts, None, true)
  {
    assert ([SignWord] + ts)[1..] == ts;
  }

  /** "minus" and the words of 1..999 read back as the negated number. */
  lemma ScanMinusSubThousand(m: nat)
    requires 1 <= m < 1000
    ensures Scan(TokensOf([Minus] + SubThousand(m)), None, false) == [-(m as int)]
  {
    var ts := TokensOf(SubThousand(m));
    assert TokensOf([Minus] + SubThousand(m)) == [SignWord] + ts;
    ScanAfterSign(ts);
    ScanSubThousand(m, true);
  }

  /** Every word of a one-group reading is readable. */
  lemma SubThousandReadable(n: nat)
    requires 1 <= n < 1000
    ensures forall i :: 0 <= i < |SubThousand(n)| ==> Readable(SubThousand(n)[i])
  {
  }

  /** A number of one group is read as that group, under either scale. */
  lemma OneGroupReading(n: int, shortScale: bool)
    requires 1 <= n < 1000 || -1000 < n <= -1
    ensures InRange(n, shortScale)
    ensures n > 0 ==> Reading(n, shortScale, false) == [SubThousand(n)]
    ensures n < 0 ==> Reading(n, shortScale, false) == [[Minus] + SubThousand(-n)]
  {
    var m := Abs(n);
    assert InRange(n, shortScale) by {
      assert m / 1000 == 0 && m / 1000000 == 0;
    }
    assert Colloquial(n).None?;
    assert ShortGroups(m, 0) == [SubThousand(m)];
    assert LongGroups(m, 0) == LongChunk(m, 0) == [SubThousand(m)];
  }

  /** The one group a number from -999 to 999 other than zero is read as. */
  function GroupOf(n: int): (p: Phrase)
    requires 1 <= n < 1000 || -1000 < n <= -1
    ensures forall i :: 0 <= i < |p| ==> Readable(p[i])
  {
    SubThousandReadable(Abs(n));
    if n > 0 then SubThousand(n) else [Minus] + SubThousand(-n)
  }

  /** `pronounce_number` speaks that group. */
  lemma PronouncedAsGroup(n: int, shortScale: bool)
    requires 1 <= n < 1000 || -1000 < n <= -1
    ensures PronounceNumber(n, shortScale, false) == Spelled(Unwords(Texts(GroupOf(n))))
  {
    OneGroupReading(n, shortScale);
    SpokenSingle(GroupOf(n));
  }

  /** A positive group reads back as its number. */
  lemma ReadsPositiveGroup(n: int, shortScale: bool)
    requires 1 <= n < 1000
    ensures ExtractNumbers(Unwords(Texts(GroupOf(n))), shortScale) == [n]
  {
    TextReadsAsTokens(GroupOf(n), shortScale);
    ScanSubThousand(n, false);
  }

  /** A group after "minus" reads back as the negated number. */
  lemma ReadsNegativeGroup(n: int, shortScale: bool)
    requires -1000 < n <= -1
    ensures ExtractNumbers(Unwords(Texts(GroupOf(n))), shortScale) == [n]
  {
    var p := GroupOf(n);
    assert p == [Minus] + SubThousand(-n);
    TextReadsAsTokens(p, shortScale);
    ScanMinusSubThousand(-n);
  }

  /** `extract_numbers` reads the text `pronounce_number` gives for any
      number from -999 to 999 other than zero as exactly that number:
      "six hundred and sixty six" reads 666 and "minus twenty seven" -27. */
  lemma ReadsOwnWords(n: int, shortScale: bool)
    requires 1 <= n < 1000 || -1000 < n <= -1
    ensures PronounceNumber(n, shortScale, false).Spelled?
    ensures ExtractNumbers(PronounceNumber(n, shortScale, false).text, shortScale) == [n]
  {
    PronouncedAsGroup(n, shortScale);
    if n > 0 {
      ReadsPositiveGroup(n, shortScale);
    } else {
      ReadsNegativeGroup(n, shortScale);
    }
  }
}
