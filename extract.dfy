/** `extract_number` and `extract_numbers` for English: the text is split into
    words, each word is classified, and maximal runs of number words that
    compose ("two hundred", "twenty two", "thousand million") are evaluated,
    a sign word in front negating the run. */
module Extract {
  import opened Options
  import opened Text
  import opened EnglishWords

  /** The first position of `s` in `tbl`, when it is there. */
  function IndexOf(tbl: seq<string>, s: string): (r: Option<nat>)
    ensures r.Some? ==> r.value < |tbl| && tbl[r.value] == s
    ensures r.Some? ==> forall j :: 0 <= j < r.value ==> tbl[j] != s
    ensures r.None? <==> s !in tbl
  {
    if s in tbl then
      FirstOccurrence(tbl, s);
      var k :| 0 <= k < |tbl| && tbl[k] == s && forall j :: 0 <= j < k ==> tbl[j] != s;
      Some(k)
    else None
  }

  lemma {:induction false} FirstOccurrence(tbl: seq<string>, s: string)
    requires s in tbl
    ensures exists k :: 0 <= k < |tbl| && tbl[k] == s && forall j :: 0 <= j < k ==> tbl[j] != s
    decreases |tbl|
  {
    if tbl[0] != s {
      var rest := tbl[1..];
      assert s in rest;
      FirstOccurrence(rest, s);
      var k :| 0 <= k < |rest| && rest[k] == s && forall j :: 0 <= j < k ==> rest[j] != s;
      forall j | 0 <= j < k + 1
        ensures tbl[j] != s
      {
        if j > 0 {
          assert tbl[j] == rest[j - 1];
        }
      }
      assert tbl[k + 1] == s;
    }
  }

  predicate Distinct(tbl: seq<string>)
  {
    forall i, j :: 0 <= i < j < |tbl| ==> tbl[i] != tbl[j]
  }

  /** In a table without repeats every entry is found where it is. */
  lemma IndexOfEntry(tbl: seq<string>, k: nat)
    requires Distinct(tbl) && k < |tbl|
    ensures IndexOf(tbl, tbl[k]) == Some(k)
  {
    assert tbl[k] in tbl;
  }

  /** What a lower-cased word means to the number reader. */
  datatype Token =
    | ZeroWord
    | UnitWord(v: nat)     // one .. nine, and "couple"
    | TeenWord(v: nat)     // ten .. nineteen
    | TensWord(v: nat)     // twenty, thirty, .. ninety
    | HundredWord
    | ScaleWord(v: nat)    // thousand, million, ..: the value it multiplies by
    | Digits(v: nat)       // "42", and "42nd" or "42%"
    | SignWord             // minus, negative
    | AndWord
    | OtherWord

  predicate IsNumber(t: Token)
  {
    !(t.SignWord? || t.AndWord? || t.OtherWord?)
  }

  /** `w` without a final "s", when it is longer than one letter. */
  function Singular(w: string): (b: string)
    ensures |w| > 1 && w[|w| - 1] == 's' ==> w == b + "s"
    ensures !(|w| > 1 && w[|w| - 1] == 's') ==> b == w
  {
    if |w| > 1 && w[|w| - 1] == 's' then w[..|w| - 1] else w
  }

  /** Scale words are "thousand" and the "-illion"s of the table, each also
      in the plural ("billions of years"). */
  function ScaleWordIndex(w: string): (r: Option<nat>)
    ensures r.Some? ==> r.value < ScaleCount && ScaleNames[r.value] == Singular(w)
  {
    assert |ScaleNames| == ScaleCount;
    var base := Singular(w);
    if base == "thousand" then Some(0)
    else if |base| > 6 && base[|base| - 6..] == "illion" then IndexOf(ScaleNames, base)
    else None
  }

  /** Every scale word after "thousand" ends in "illion". */
  lemma IllionEndings(k: nat)
    requires 1 <= k < |ScaleNames|
    ensures |ScaleNames[k]| > 6 && ScaleNames[k][|ScaleNames[k]| - 6..] == "illion"
  {
    if k <= 4 {
      IllionEndingsA(k);
    } else if k <= 8 {
      IllionEndingsB(k);
    } else if k <= 12 {
      IllionEndingsC(k);
    } else if k <= 16 {
      IllionEndingsD(k);
    } else if k <= 20 {
      IllionEndingsE(k);
    } else if k <= 24 {
      IllionEndingsF(k);
    } else if k <= 28 {
      IllionEndingsG(k);
    } else if k <= 32 {
      IllionEndingsH(k);
    } else if k <= 36 {
      IllionEndingsI(k);
    } else if k <= 40 {
      IllionEndingsJ(k);
    } else if k <= 44 {
      IllionEndingsK(k);
    } else {
      IllionEndingsL(k);
    }
  }

  lemma IllionEndingsA(k: nat)
    requires 1 <= k <= 4
    ensures |ScaleNames[k]| > 6 && ScaleNames[k][|ScaleNames[k]| - 6..] == "illion"
  {
    if k == 1 {
      assert ScaleNames[1] == "million";
    } else if k == 2 {
      assert ScaleNames[2] == "billion";
    } else if k == 3 {
      assert ScaleNames[3] == "trillion";
    } else {
      assert ScaleNames[4] == "quadrillion";
    }
  }

  lemma IllionEndingsB(k: nat)
    requires 5 <= k <= 8
    ensures |ScaleNames[k]| > 6 && ScaleNames[k][|ScaleNames[k]| - 6..] == "illion"
  {
    if k == 5 {
      assert ScaleNames[5] == "quintillion";
    } else if k == 6 {
      assert ScaleNames[6] == "sextillion";
    } else if k == 7 {
      assert ScaleNames[7] == "septillion";
    } else {
      assert ScaleNames[8] == "octillion";
    }
  }

  lemma IllionEndingsC(k: nat)
    requires 9 <= k <= 12
    ensures |ScaleNames[k]| > 6 && ScaleNames[k][|ScaleNames[k]| - 6..] == "illion"
  {
    if k == 9 {
      assert ScaleNames[9] == "nonillion";
    } else if k == 10 {
      assert ScaleNames[10] == "decillion";
    } else if k == 11 {
      assert ScaleNames[11] == "undecillion";
    } else {
      assert ScaleNames[12] == "duodecillion";
    }
  }

  lemma IllionEndingsD(k: nat)
    requires 13 <= k <= 16
    ensures |ScaleNames[k]| > 6 && ScaleNames[k][|ScaleNames[k]| - 6..] == "illion"
  {
    if k == 13 {
      assert ScaleNames[13] == "tredecillion";
    } else if k == 14 {
      assert ScaleNames[14] == "quattuordecillion";
    } else if k == 15 {
      assert ScaleNames[15] == "quinquadecillion";
    } else {
      assert ScaleNames[16] == "sedecillion";
    }
  }

  lemma IllionEndingsE(k: nat)
    requires 17 <= k <= 20
    ensures |ScaleNames[k]| > 6 && ScaleNames[k][|ScaleNames[k]| - 6..] == "illion"
  {
    if k == 17 {
      assert ScaleNames[17] == "septendecillion";
    } else if k == 18 {
      assert ScaleNames[18] == "octodecillion";
    } else if k == 19 {
      assert ScaleNames[19] == "novendecillion";
    } else {
      assert ScaleNames[20] == "vigintillion";
    }
  }

  lemma IllionEndingsF(k: nat)
    requires 21 <= k <= 24
    ensures |ScaleNames[k]| > 6 && ScaleNames[k][|ScaleNames[k]| - 6..] == "illion"
  {
    if k == 21 {
      assert ScaleNames[21] == "unvigintillion";
    } else if k == 22 {
      assert ScaleNames[22] == "uuovigintillion";
    } else if k == 23 {
      assert ScaleNames[23] == "tresvigintillion";
    } else {
      assert ScaleNames[24] == "quattuorvigintillion";
    }
  }

  lemma IllionEndingsG(k: nat)
    requires 25 <= k <= 28
    ensures |ScaleNames[k]| > 6 && ScaleNames[k][|ScaleNames[k]| - 6..] == "illion"
  {
    if k == 25 {
      assert ScaleNames[25] == "quinquavigintillion";
    } else if k == 26 {
      assert ScaleNames[26] == "qesvigintillion";
    } else if k == 27 {
      assert ScaleNames[27] == "septemvigintillion";
    } else {
      assert ScaleNames[28] == "octovigintillion";
    }
  }

  lemma IllionEndingsH(k: nat)
    requires 29 <= k <= 32
    ensures |ScaleNames[k]| > 6 && ScaleNames[k][|ScaleNames[k]| - 6..] == "illion"
  {
    if k == 29 {
      assert ScaleNames[29] == "novemvigintillion";
    } else if k == 30 {
      assert ScaleNames[30] == "trigintillion";
    } else if k == 31 {
      assert ScaleNames[31] == "untrigintillion";
    } else {
      assert ScaleNames[32] == "duotrigintillion";
    }
  }

  lemma IllionEndingsI(k: nat)
    requires 33 <= k <= 36
    ensures |ScaleNames[k]| > 6 && ScaleNames[k][|ScaleNames[k]| - 6..] == "illion"
  {
    if k == 33 {
      assert ScaleNames[33] == "trestrigintillion";
    } else if k == 34 {
      assert ScaleNames[34] == "quattuortrigintillion";
    } else if k == 35 {
      assert ScaleNames[35] == "quinquatrigintillion";
    } else {
      assert ScaleNames[36] == "sestrigintillion";
    }
  }

  lemma IllionEndingsJ(k: nat)
    requires 37 <= k <= 40
    ensures |ScaleNames[k]| > 6 && ScaleNames[k][|ScaleNames[k]| - 6..] == "illion"
  {
    if k == 37 {
      assert ScaleNames[37] == "septentrigintillion";
    } else if k == 38 {
      assert ScaleNames[38] == "octotrigintillion";
    } else if k == 39 {
      assert ScaleNames[39] == "noventrigintillion";
    } else {
      assert ScaleNames[40] == "quadragintillion";
    }
  }

  lemma IllionEndingsK(k: nat)
    requires 41 <= k <= 44
    ensures |ScaleNames[k]| > 6 && ScaleNames[k][|ScaleNames[k]| - 6..] == "illion"
  {
    if k == 41 {
      assert ScaleNames[41] == "quinquagintillion";
    } else if k == 42 {
      assert ScaleNames[42] == "sexagintillion";
    } else if k == 43 {
      assert ScaleNames[43] == "septuagintillion";
    } else {
      assert ScaleNames[44] == "octogintillion";
    }
  }

  lemma IllionEndingsL(k: nat)
    requires 45 <= k <= 48
    ensures |ScaleNames[k]| > 6 && ScaleNames[k][|ScaleNames[k]| - 6..] == "illion"
  {
    if k == 45 {
      assert ScaleNames[45] == "nonagintillion";
    } else if k == 46 {
      assert ScaleNames[46] == "centillion";
    } else if k == 47 {
      assert ScaleNames[47] == "uncentillion";
    } else {
      assert ScaleNames[48] == "millinillion";
    }
  }

  /** Conversely, every word of the scale table, and its plural, is read as
      a scale word. */
  lemma ScaleWordIndexComplete(w: string)
    requires Singular(w) in ScaleNames
    ensures ScaleWordIndex(w).Some?
  {
    var base := Singular(w);
    var k :| 0 <= k < |ScaleNames| && ScaleNames[k] == base;
    if k > 0 {
      IllionEndings(k);
    }
  }

  /** `IndexOf` finds the first position holding `s`. */
  lemma IndexOfAt(tbl: seq<string>, s: string, k: nat)
    requires k < |tbl| && tbl[k] == s && forall j :: 0 <= j < k ==> tbl[j] != s
    ensures IndexOf(tbl, s) == Some(k)
  {
  }

  /** A plural scale word ("billions") reads as its singular. */
  lemma PluralScaleIndex(w: string, base: string)
    requires w == base + "s" && |base| > 1 && base[|base| - 1] != 's'
    ensures ScaleWordIndex(w) == ScaleWordIndex(base)
  {
    assert w[..|w| - 1] == base;
    assert Singular(w) == base == Singular(base);
  }

  /** The suffixes a digit string may carry and still be read as its
      number: the ordinal endings and the percent sign. */
  const DigitEndings: seq<string> := ["st", "nd", "rd", "th", "%"]

  /** `w` is the digit string `d`, bare or with one of `DigitEndings`. */
  predicate DigitsWithEnding(w: string, d: string)
  {
    IsDigits(d) && (w == d || (|d| < |w| && w[..|d|] == d && w[|d|..] in DigitEndings))
  }

  /** The digits of a number word: the word itself when it is all digits,
      else the word without its ordinal ending or percent sign. */
  function DigitsPart(w: string): (r: Option<string>)
    ensures r.Some? ==> DigitsWithEnding(w, r.value)
  {
    if IsDigits(w) then Some(w)
    else if |w| > 2 && IsDigits(w[..|w| - 2]) && w[|w| - 2..] in ["st", "nd", "rd", "th"] then
      Some(w[..|w| - 2])
    else if |w| > 1 && IsDigits(w[..|w| - 1]) && w[|w| - 1] == '%' then
      assert w[|w| - 1..] == "%";
      Some(w[..|w| - 1])
    else None
  }

  /** Conversely, a digit string with or without one of the endings always
      yields its digits. */
  lemma DigitsPartComplete(w: string, d: string)
    requires DigitsWithEnding(w, d)
    ensures DigitsPart(w) == Some(d)
  {
    if w != d {
      assert !IsDigit(w[|d|]) by {
        assert w[|d|..][0] == w[|d|];
      }
      if |w| == |d| + 1 {
        assert w[|d|..] == "%";
        assert w[|w| - 2..] == [d[|d| - 1], '%'];
      } else {
        assert w[|w| - 2..] == w[|d|..];
      }
    }
  }

  /** "zero" .. "nineteen". */
  function SmallToken(w: string): (r: Option<Token>)
    ensures r.Some? ==> r.value.ZeroWord? || (r.value.UnitWord? && 1 <= r.value.v <= 9)
                        || (r.value.TeenWord? && 10 <= r.value.v <= 19)
  {
    match IndexOf(SmallNames, w)
    case None => None
    case Some(k) =>
      assert k < |SmallNames| == 20;
      Some(if k == 0 then ZeroWord else if k < 10 then UnitWord(k) else TeenWord(k))
  }

  /** "twenty" .. "ninety". */
  function TensToken(w: string): (r: Option<Token>)
    ensures r.Some? ==> r.value.TensWord? && 20 <= r.value.v <= 90
  {
    match IndexOf(TensNames, w)
    case None => None
    case Some(k) =>
      assert k < |TensNames| == 8;
      Some(TensWord(10 * (k + 2)))
  }

  /** The number-word reading of `w` from the word tables, if any. */
  function TableToken(w: string, shortScale: bool): (r: Option<Token>)
    ensures r.Some? && r.value.TensWord? ==> 20 <= r.value.v <= 90
    ensures r.Some? && r.value.UnitWord? ==> 1 <= r.value.v <= 9
    ensures r.Some? && r.value.TeenWord? ==> 10 <= r.value.v <= 19
    ensures r.Some? && r.value.ScaleWord? ==> r.value.v >= 1000
  {
    if SmallToken(w).Some? then SmallToken(w)
    else if TensToken(w).Some? then TensToken(w)
    else if w == "hundred" || w == "hundreds" then Some(HundredWord)
    else match ScaleWordIndex(w)
      case Some(k) => Some(ScaleWord(ScaleValue(k, shortScale)))
      case None => None
  }

  /** The word tables hold no word twice. */
  lemma TablesDistinct()
    ensures Distinct(SmallNames) && Distinct(TensNames)
  {
  }

  /** Each small-number word reads as its value. */
  lemma SmallEntry(k: nat)
    requires k < 20
    ensures SmallToken(SmallNames[k]) ==
      Some(if k == 0 then ZeroWord else if k < 10 then UnitWord(k) else TeenWord(k))
  {
    TablesDistinct();
    IndexOfEntry(SmallNames, k);
  }

  /** Each tens word reads as its value. */
  lemma TensEntry(k: nat)
    requires 2 <= k <= 9
    ensures SmallToken(TensNames[k - 2]) == None
    ensures TensToken(TensNames[k - 2]) == Some(TensWord(10 * k))
  {
    TablesDistinct();
    IndexOfEntry(TensNames, k - 2);
    TensAreNotSmall(k - 2);
  }

  lemma TensAreNotSmall(j: nat)
    requires j < 8
    ensures TensNames[j] !in SmallNames
  {
    TablesDisjoint();
  }

  lemma TablesDisjoint()
    ensures forall i, j :: 0 <= i < |SmallNames| && 0 <= j < |TensNames| ==> SmallNames[i] != TensNames[j]
  {
  }

  /** A word outside the tables has no table reading. */
  lemma NotInTables(w: string, shortScale: bool)
    requires w !in SmallNames && w !in TensNames && w != "hundred" && w != "hundreds"
    requires ScaleWordIndex(w).None?
    ensures TableToken(w, shortScale).None?
  {
  }

  /** A word that is in no table, is none of the fixed words and carries no
      digits reads as an ordinary word. */
  lemma OrdinaryWord(w: string, shortScale: bool)
    requires SmallToken(w).None? && TensToken(w).None? && w != "hundred" && w != "hundreds"
    requires ScaleWordIndex(w).None? && DigitsPart(w).None?
    requires w != "couple" && w != "minus" && w != "negative" && w != "and"
    ensures Classify(w, shortScale) == OtherWord
  {
    assert TableToken(w, shortScale).None?;
  }

  /** Classifies a lower-cased word. */
  function Classify(w: string, shortScale: bool): (t: Token)
    ensures t.TensWord? ==> 20 <= t.v <= 90
    ensures t.UnitWord? ==> 1 <= t.v <= 9
    ensures t.TeenWord? ==> 10 <= t.v <= 19
    ensures t.ScaleWord? ==> t.v >= 1000
  {
    match TableToken(w, shortScale)
    case Some(t) => t
    case None =>
      if w == "couple" then UnitWord(2)
      else if w == "minus" || w == "negative" then SignWord
      else if w == "and" then AndWord
      else match DigitsPart(w)
        case Some(d) => Digits(ParseNat(d))
        case None => OtherWord
  }

  predicate IsTens(t: Token)
  {
    t.TensWord? || (t.Digits? && 20 <= t.v <= 90 && t.v % 10 == 0)
  }

  /** Whether `next` continues a run whose last word is `prev`: units after
      tens, a hundred or a scale word; teens and tens after a hundred or a
      scale word; "hundred" after a unit, teen or tens; a scale word after
      any of those, after a nonzero digit string, or after a smaller scale
      word. A single digit also continues a multiple of ten ("twenty 2"). */
  predicate Follows(prev: Token, next: Token)
  {
    match next
    case UnitWord(_) => IsTens(prev) || prev.HundredWord? || prev.ScaleWord?
    case Digits(v) => 1 <= v <= 9 && IsTens(prev)
    case TeenWord(_) => prev.HundredWord? || prev.ScaleWord?
    case TensWord(_) => prev.HundredWord? || prev.ScaleWord?
    case HundredWord => prev.UnitWord? || prev.TeenWord? || prev.TensWord?
    case ScaleWord(v) =>
      prev.UnitWord? || prev.TeenWord? || prev.TensWord? || prev.HundredWord? ||
      (prev.Digits? && prev.v >= 1) || (prev.ScaleWord? && prev.v < v)
    case _ => false
  }

  /** Only number words other than "zero" make up a run, and after a unit
      or teen word only "hundred" or a scale word continues it: "one two
      three" is three numbers, "one twenty one" two. */
  lemma FollowsOnlyNumbers(prev: Token, next: Token)
    ensures Follows(prev, next) ==> IsNumber(prev) && IsNumber(next) && !prev.ZeroWord? && !next.ZeroWord?
    ensures prev.UnitWord? || prev.TeenWord? ==> (Follows(prev, next) <==> next.HundredWord? || next.ScaleWord?)
  {
  }

  /** A run being read: the sum of the finished scale groups, the group in
      progress, the run's last word and whether a sign word preceded it. */
  datatype Run = Run(total: nat, part: nat, last: Token, negative: bool)

  function AtLeastOne(n: nat): nat
  {
    if n == 0 then 1 else n
  }

  /** One more word of a run: units, teens, tens and digits add to the group
      in progress; "hundred" multiplies it (a bare "hundred" is 100); a
      scale word multiplies it together with the part of the total below
      that scale (a bare scale word counts once). */
  function Add(r: Run, t: Token): (s: Run)
    ensures s.negative == r.negative && s.last == t
  {
    match t
    case UnitWord(v) => Run(r.total, r.part + v, t, r.negative)
    case TeenWord(v) => Run(r.total, r.part + v, t, r.negative)
    case TensWord(v) => Run(r.total, r.part + v, t, r.negative)
    case Digits(v) => Run(r.total, r.part + v, t, r.negative)
    case HundredWord => Run(r.total, AtLeastOne(r.part) * 100, t, r.negative)
    case ScaleWord(v) =>
      if v == 0 then Run(r.total, r.part, t, r.negative)
      else
        var lower := r.total % v;
        Run(r.total - lower + AtLeastOne(lower + r.part) * v, 0, t, r.negative)
    case _ => Run(r.total, r.part, t, r.negative)
  }

  /** What one more word does to the run's magnitude: a unit, teen, tens
      word or digit string adds its value; "hundred" multiplies the group
      in progress by a hundred. */
  lemma AddValue(r: Run, t: Token)
    ensures (t.UnitWord? || t.TeenWord? || t.TensWord? || t.Digits?) ==>
      Add(r, t).total == r.total && Add(r, t).part == r.part + t.v
    ensures t.HundredWord? ==> Add(r, t).total == r.total && Add(r, t).part == AtLeastOne(r.part) * 100
  {
  }

  /** A scale word closes the group in progress, leaving a multiple of the
      scale that is no smaller than the run was ("two hundred thousand" is
      200 * 1000). */
  lemma AddScaleValue(r: Run, v: nat)
    requires v >= 1
    ensures Add(r, ScaleWord(v)).part == 0
    ensures Add(r, ScaleWord(v)).total % v == 0
    ensures Add(r, ScaleWord(v)).total >= r.total + r.part
  {
    var lower := r.total % v;
    var k := AtLeastOne(lower + r.part);
    var q := r.total / v;
    assert r.total == q * v + lower;
    MultipleOf(q + k, v);
    assert Add(r, ScaleWord(v)).total == (q + k) * v by {
      assert (q + k) * v == q * v + k * v;
    }
    assert k * v >= k;
  }

  lemma MultipleOf(m: nat, v: nat)
    requires v >= 1
    ensures (m * v) % v == 0
  {
    var x := m * v;
    var d := x / v - m;
    assert x == (x / v) * v + x % v;
    assert d * v == -(x % v) by {
      assert (x / v) * v == (d + m) * v == d * v + m * v;
    }
  }


  function Start(t: Token, negative: bool): Run
  {
    Add(Run(0, 0, t, negative), t)
  }

  function Value(r: Run): int
  {
    if r.negative then -(r.total + r.part) else r.total + r.part
  }

  function Close(cur: Option<Run>): (r: seq<int>)
    ensures |r| == (if cur.Some? then 1 else 0)
  {
    match cur
    case None => []
    case Some(run) => [Value(run)]
  }

  /** Reads the remaining tokens: a number word that follows the current
      run's last word extends it; "and" between a hundred or scale word and
      a word that may follow it is passed over; any other number word closes
      the run and starts a new one, negative when a sign word came just
      before; any other word closes the run. */
  function Scan(ts: seq<Token>, cur: Option<Run>, sign: bool): seq<int>
    decreases |ts|
  {
    if ts == [] then Close(cur)
    else
      var t := ts[0];
      if cur.Some? && Follows(cur.value.last, t) then
        Scan(ts[1..], Some(Add(cur.value, t)), false)
      else if cur.Some? && t.AndWord? && (cur.value.last.HundredWord? || cur.value.last.ScaleWord?)
              && |ts| > 1 && Follows(cur.value.last, ts[1]) then
        Scan(ts[1..], cur, false)
      else if IsNumber(t) then
        Close(cur) + Scan(ts[1..], Some(Start(t, sign)), false)
      else
        Close(cur) + Scan(ts[1..], None, t.SignWord?)
  }

  /** The tokens of a text's (lower-cased) words. */
  function Tokens(ws: seq<string>, shortScale: bool): (ts: seq<Token>)
    ensures |ts| == |ws|
  {
    if ws == [] then [] else [Classify(ws[0], shortScale)] + Tokens(ws[1..], shortScale)
  }

  lemma TokensCons(w: string, ws: seq<string>, shortScale: bool)
    ensures Tokens([w] + ws, shortScale) == [Classify(w, shortScale)] + Tokens(ws, shortScale)
  {
    assert ([w] + ws)[1..] == ws;
  }

  /** Each word gets its own reading. */
  lemma {:induction false} TokensAt(ws: seq<string>, shortScale: bool, i: nat)
    requires i < |ws|
    ensures Tokens(ws, shortScale)[i] == Classify(ws[i], shortScale)
    decreases i
  {
    if i > 0 {
      TokensAt(ws[1..], shortScale, i - 1);
    }
  }

  lemma TokensAppend(xs: seq<string>, ys: seq<string>, shortScale: bool)
    ensures Tokens(xs + ys, shortScale) == Tokens(xs, shortScale) + Tokens(ys, shortScale)
  {
    var l, r := Tokens(xs + ys, shortScale), Tokens(xs, shortScale) + Tokens(ys, shortScale);
    forall i | 0 <= i < |l|
      ensures l[i] == r[i]
    {
      TokensAt(xs + ys, shortScale, i);
      if i < |xs| {
        TokensAt(xs, shortScale, i);
        assert (xs + ys)[i] == xs[i];
      } else {
        TokensAt(ys, shortScale, i - |xs|);
        assert (xs + ys)[i] == ys[i - |xs|];
      }
    }
  }

  /** A word list whose words each read as the matching token reads as
      that token list. */
  lemma TokensOfReadings(ws: seq<string>, ts: seq<Token>, shortScale: bool)
    requires |ws| == |ts| && forall i :: 0 <= i < |ws| ==> Classify(ws[i], shortScale) == ts[i]
    ensures Tokens(ws, shortScale) == ts
  {
    forall i | 0 <= i < |ws|
      ensures Tokens(ws, shortScale)[i] == ts[i]
    {
      TokensAt(ws, shortScale, i);
    }
  }

  /** Two word lists read one after the other. */
  lemma TokensJoin(xs: seq<string>, ys: seq<string>, txs: seq<Token>, tys: seq<Token>, shortScale: bool)
    requires Tokens(xs, shortScale) == txs && Tokens(ys, shortScale) == tys
    ensures Tokens(xs + ys, shortScale) == txs + tys
  {
    TokensAppend(xs, ys, shortScale);
  }

  /** `extract_numbers(text, short_scale)`: every number the text holds, in
      order. */
  function ExtractNumbers(text: string, shortScale: bool): seq<int>
  {
    Scan(Tokens(Words(Lower(text)), shortScale), None, false)
  }

  /** `extract_number(text, short_scale)`: the first number, or nothing
      (the source's `False`). */
  function ExtractNumber(text: string, shortScale: bool): (r: Option<int>)
    ensures r.None? <==> ExtractNumbers(text, shortScale) == []
    ensures r.Some? ==> r.value == ExtractNumbers(text, shortScale)[0]
  {
    var ns := ExtractNumbers(text, shortScale);
    if ns == [] then None else Some(ns[0])
  }

  // ---------------------------------------------------------------------
  // Laws

  /** A text yields no number exactly when none of its words is a number
      word: "fraggle" gives nothing, "fraggle zero" gives 0. */
  lemma {:induction false} ScanEmptyIff(ts: seq<Token>, cur: Option<Run>, sign: bool)
    ensures Scan(ts, cur, sign) == [] <==>
      cur.None? && forall i :: 0 <= i < |ts| ==> !IsNumber(ts[i])
    decreases |ts|
  {
    if ts != [] {
      var t := ts[0];
      if cur.Some? && Follows(cur.value.last, t) {
        ScanEmptyIff(ts[1..], Some(Add(cur.value, t)), false);
      } else if cur.Some? && t.AndWord? && (cur.value.last.HundredWord? || cur.value.last.ScaleWord?)
                && |ts| > 1 && Follows(cur.value.last, ts[1]) {
        ScanEmptyIff(ts[1..], cur, false);
      } else if IsNumber(t) {
        ScanEmptyIff(ts[1..], Some(Start(t, sign)), false);
      } else {
        ScanEmptyIff(ts[1..], None, t.SignWord?);
        if cur.None? {
          if forall i :: 0 <= i < |ts[1..]| ==> !IsNumber(ts[1..][i]) {
            forall i | 0 <= i < |ts| ensures !IsNumber(ts[i]) {
              if i > 0 {
                assert ts[i] == ts[1..][i - 1];
              }
            }
          }
        }
      }
    }
  }

  /** A number word that cannot continue the current run closes it: the
      run's value comes out on its own and reading starts afresh. */
  lemma SplitsWhenNotFollowing(r: Run, t: Token, rest: seq<Token>, sign: bool)
    requires IsNumber(t) && !Follows(r.last, t)
    ensures Scan([t] + rest, Some(r), sign) == [Value(r)] + Scan([t] + rest, None, sign)
  {
    assert ([t] + rest)[1..] == rest;
  }

  function NegateFirst(ns: seq<int>): seq<int>
  {
    if ns == [] then [] else [-ns[0]] + ns[1..]
  }

  /** A digit string standing alone reads as its value. */
  lemma LoneDigitString(v: nat)
    ensures Scan([Digits(v)], None, false) == [v]
  {
    var run := Start(Digits(v), false);
    assert [Digits(v)][1..] == [];
    assert run == Run(0, v, Digits(v), false);
  }

  /** A sign word in front of a number negates that number and nothing
      after it: "minus 2" is -2. */
  lemma {:induction false} SignNegatesRun(ts: seq<Token>, r: Run)
    ensures Scan(ts, Some(r.(negative := !r.negative)), false) == NegateFirst(Scan(ts, Some(r), false))
    decreases |ts|
  {
    var r' := r.(negative := !r.negative);
    if ts != [] {
      var t := ts[0];
      if Follows(r.last, t) {
        SignNegatesRun(ts[1..], Add(r, t));
        assert Add(r', t) == Add(r, t).(negative := !r.negative);
      } else if t.AndWord? && (r.last.HundredWord? || r.last.ScaleWord?) && |ts| > 1 && Follows(r.last, ts[1]) {
        SignNegatesRun(ts[1..], r);
      }
    }
  }

  /** "minus" before a number word reads that number negated. */
  lemma SignWordNegates(t: Token, rest: seq<Token>)
    requires IsNumber(t)
    ensures Scan([SignWord, t] + rest, None, false) == NegateFirst(Scan([t] + rest, None, false))
  {
    var ts := [SignWord, t] + rest;
    assert ts[1..] == [t] + rest;
    assert ([t] + rest)[1..] == rest;
    assert Scan(ts, None, false) == Scan([t] + rest, None, true);
    assert Scan([t] + rest, None, true) == Scan(rest, Some(Start(t, true)), false);
    assert Scan([t] + rest, None, false) == Scan(rest, Some(Start(t, false)), false);
    assert Start(t, true) == Start(t, false).(negative := true);
    SignNegatesRun(rest, Start(t, false));
  }

  /** Reading is case-insensitive: "Twenty two" reads as "twenty two". */
  lemma CaseInsensitive(text: string, shortScale: bool)
    ensures ExtractNumbers(Lower(text), shortScale) == ExtractNumbers(text, shortScale)
  {
    LowerIdempotent(text);
  }

  /** No table word begins with a digit. */
  lemma NamesStartWithLetters(s: string)
    requires s != "" && IsDigit(s[0])
    ensures s !in SmallNames && s !in TensNames && s != "hundred" && s != "hundreds"
  {
  }

  /** No scale word, singular or plural, ends with a digit. */
  lemma ScaleWordsEndWithLetters(s: string)
    requires s != "" && IsDigit(s[|s| - 1])
    ensures ScaleWordIndex(s).None?
  {
  }

  /** A string of digits reads as the number it spells, whatever the scale. */
  lemma DigitWordReading(s: string, shortScale: bool)
    requires IsDigits(s)
    ensures Classify(s, shortScale) == Digits(ParseNat(s))
  {
    NamesStartWithLetters(s);
    ScaleWordsEndWithLetters(s);
    NotInTables(s, shortScale);
  }
}
