/** English numerals (`pronounce_number`): cardinals in groups of three
    digits, short and long scale, the sign word, ordinals, the four-digit
    colloquial reading and decimals truncated to a number of places. */
module Numerals {
  import opened Options
  import opened Text
  import opened EnglishWords

  /** The words of one comma-separated group, e.g. "two hundred and nine
      thousand" is [Small(2), Hundred, And, Small(9), Scale(0)]. */
  type Phrase = seq<Word>

  /** Every group has at least one word. */
  predicate NonEmptyGroups(gs: seq<Phrase>)
  {
    forall i :: 0 <= i < |gs| ==> gs[i] != []
  }

  /** 1..99 in words. */
  function SubHundred(n: nat): (p: Phrase)
    requires 1 <= n < 100
    ensures 1 <= |p| <= 2
    ensures n < 20 ==> p == [Small(n)]
    ensures n >= 20 ==> p[0] == Tens(n / 10)
  {
    if n < 20 then [Small(n)]
    else if n % 10 == 0 then [Tens(n / 10)]
    else [Tens(n / 10), Small(n % 10)]
  }

  /** 1..999 in words, "and" joining the hundreds to the rest. */
  function SubThousand(n: nat): (p: Phrase)
    requires 1 <= n < 1000
    ensures p != [] && (p[0].Small? || p[0].Tens?)
    ensures n < 100 ==> p == SubHundred(n)
    ensures n >= 100 ==> |p| >= 2 && p[..2] == [Small(n / 100), Hundred]
    ensures n >= 100 ==> (n % 100 == 0 <==> |p| == 2)
    ensures n >= 100 && n % 100 != 0 ==> p == [Small(n / 100), Hundred, And] + SubHundred(n % 100)
  {
    if n < 100 then SubHundred(n)
    else if n % 100 == 0 then [Small(n / 100), Hundred]
    else [Small(n / 100), Hundred, And] + SubHundred(n % 100)
  }

  /** How many groups of `width` digits (base `unit`) `n` has. */
  function GroupCount(n: nat, unit: nat): (k: nat)
    requires unit >= 2
    ensures n == 0 <==> k == 0
    decreases n
  {
    if n == 0 then 0 else 1 + GroupCount(n / unit, unit)
  }

  lemma DivLess(n: nat, d: nat, p: nat)
    requires d >= 1
    ensures n / d < p <==> n < d * p
  {
    var q, r := n / d, n % d;
    assert n == d * q + r && 0 <= r < d;
    if q < p {
      assert d * q <= d * (p - 1);
    } else {
      assert d * q >= d * p;
    }
  }

  /** `n` has at most `k` groups exactly when it is below `unit^k`. */
  lemma {:induction false} GroupCountBound(n: nat, unit: nat, k: nat)
    requires unit >= 2
    ensures GroupCount(n, unit) <= k <==> n < Pow(unit, k)
    decreases k
  {
    if n > 0 && k > 0 {
      GroupCountBound(n / unit, unit, k - 1);
      DivLess(n, unit, Pow(unit, k - 1));
    }
  }

  /** A reading whose first word is a number word. */
  predicate StartsWithNumber(gs: seq<Phrase>)
  {
    gs != [] && gs[0] != [] && (gs[0][0].Small? || gs[0][0].Tens?)
  }

  /** The value of words read from left to right: `done` is what scale
      words have already closed, `current` the part being built up. */
  datatype Tally = Tally(done: nat, current: nat)

  function AtLeastOne(n: nat): nat
  {
    if n == 0 then 1 else n
  }

  /** Reading one more word. A number word adds to the part being built;
      "hundred" multiplies it by a hundred; a scale word multiplies all that
      was read before it by its value; a bare "hundred" or scale word counts
      as one of it. "and", "minus", "point" and "oh" add nothing, and an
      ordinal counts as its cardinal. */
  function Step(t: Tally, w: Word, shortScale: bool): Tally
  {
    match w
    case Small(k) => Tally(t.done, t.current + k)
    case Tens(k) => Tally(t.done, t.current + 10 * k)
    case Hundred => Tally(t.done, AtLeastOne(t.current) * 100)
    case Scale(k) => Tally(AtLeastOne(t.done + t.current) * ScaleValue(k, shortScale), 0)
    case Ordinal(b) => Step(t, b, shortScale)
    case _ => t
  }

  function Run(t: Tally, p: Phrase, shortScale: bool): Tally
    decreases |p|
  {
    if p == [] then t else Run(Step(t, p[0], shortScale), p[1..], shortScale)
  }

  /** The value of one group, read on its own. */
  function PhraseValue(p: Phrase, shortScale: bool): nat
  {
    var t := Run(Tally(0, 0), p, shortScale);
    t.done + t.current
  }

  /** The value of comma-separated groups: the sum of their values. */
  function GroupsValue(gs: seq<Phrase>, shortScale: bool): nat
    decreases |gs|
  {
    if gs == [] then 0 else PhraseValue(gs[0], shortScale) + GroupsValue(gs[1..], shortScale)
  }

  /** The number a reading names: its groups' value, negated when it
      starts with "minus". */
  function NumberValue(gs: seq<Phrase>, shortScale: bool): int
  {
    var v: int := GroupsValue(gs, shortScale);
    if gs != [] && gs[0] != [] && gs[0][0] == Minus then -v else v
  }

  lemma {:induction false} RunAppend(t: Tally, p: Phrase, q: Phrase, shortScale: bool)
    ensures Run(t, p + q, shortScale) == Run(Run(t, p, shortScale), q, shortScale)
    decreases |p|
  {
    if p == [] {
      assert p + q == q;
    } else {
      assert (p + q)[1..] == p[1..] + q;
      RunAppend(Step(t, p[0], shortScale), p[1..], q, shortScale);
    }
  }

  lemma RunCons(t: Tally, w: Word, p: Phrase, shortScale: bool)
    ensures Run(t, [w] + p, shortScale) == Run(Step(t, w, shortScale), p, shortScale)
  {
    assert ([w] + p)[1..] == p;
  }

  lemma RunOne(t: Tally, w: Word, shortScale: bool)
    ensures Run(t, [w], shortScale) == Step(t, w, shortScale)
  {
    assert [w][1..] == [];
  }

  lemma FlattenOne<T>(x: seq<T>)
    ensures Flatten([x]) == x
  {
    assert [x][1..] == [];
    assert x + [] == x;
  }

  lemma {:induction false} GroupsValueAppend(gs: seq<Phrase>, hs: seq<Phrase>, shortScale: bool)
    ensures GroupsValue(gs + hs, shortScale) == GroupsValue(gs, shortScale) + GroupsValue(hs, shortScale)
    decreases |gs|
  {
    if gs == [] {
      assert gs + hs == hs;
    } else {
      assert (gs + hs)[1..] == gs[1..] + hs;
      GroupsValueAppend(gs[1..], hs, shortScale);
    }
  }

  lemma GroupsValueSingle(g: Phrase, shortScale: bool)
    ensures GroupsValue([g], shortScale) == PhraseValue(g, shortScale)
  {
    assert [g][1..] == [];
  }

  /** The words of 1..99 add up to the number, on top of what came before. */
  lemma SubHundredRun(d: nat, c: nat, n: nat, shortScale: bool)
    requires 1 <= n < 100
    ensures Run(Tally(d, c), SubHundred(n), shortScale) == Tally(d, c + n)
  {
    var t := Tally(d, c);
    if n < 20 {
      RunOne(t, Small(n), shortScale);
    } else if n % 10 == 0 {
      RunOne(t, Tens(n / 10), shortScale);
    } else {
      assert SubHundred(n) == [Tens(n / 10)] + [Small(n % 10)];
      RunCons(t, Tens(n / 10), [Small(n % 10)], shortScale);
      RunOne(Tally(d, c + 10 * (n / 10)), Small(n % 10), shortScale);
    }
  }

  /** The words of 1..999 read from a fresh part give the number. */
  lemma SubThousandRun(d: nat, z: nat, shortScale: bool)
    requires 1 <= z < 1000
    ensures Run(Tally(d, 0), SubThousand(z), shortScale) == Tally(d, z)
  {
    if z < 100 {
      SubHundredRun(d, 0, z, shortScale);
    } else {
      var h := z / 100;
      var p := [Small(h), Hundred, And];
      RunCons(Tally(d, 0), Small(h), [Hundred], shortScale);
      RunOne(Tally(d, h), Hundred, shortScale);
      assert Run(Tally(d, 0), p, shortScale) == Tally(d, h * 100) by {
        assert p == [Small(h)] + ([Hundred] + [And]);
        RunCons(Tally(d, 0), Small(h), [Hundred] + [And], shortScale);
        RunCons(Tally(d, h), Hundred, [And], shortScale);
        RunOne(Tally(d, h * 100), And, shortScale);
      }
      if z % 100 == 0 {
        assert SubThousand(z) == [Small(h)] + [Hundred];
      } else {
        assert SubThousand(z) == p + SubHundred(z % 100);
        RunAppend(Tally(d, 0), p, SubHundred(z % 100), shortScale);
        SubHundredRun(d, h * 100, z % 100, shortScale);
      }
    }
  }

  /** The group for the three digits `z` at index `i`: nothing when they are
      zero, otherwise their words followed by the scale word of the index. */
  function ShortGroup(z: nat, i: nat): (gs: seq<Phrase>)
    requires z < 1000 && i <= ScaleCount
    ensures z == 0 <==> gs == []
    ensures z != 0 ==> |gs| == 1 && StartsWithNumber(gs)
  {
    if z == 0 then []
    else if i == 0 then [SubThousand(z)]
    else [SubThousand(z) + [Scale(i - 1)]]
  }

  /** The short-scale groups of `n`, whose lowest group has index `i`
      (group `i` is worth 1000^i and, for i >= 1, carries the scale word
      `Scale(i - 1)`); groups equal to zero are left out. */
  function ShortGroups(n: nat, i: nat): (gs: seq<Phrase>)
    requires i + GroupCount(n, 1000) <= ScaleCount + 1
    ensures n == 0 <==> gs == []
    ensures n != 0 ==> StartsWithNumber(gs)
    ensures NonEmptyGroups(gs)
    decreases n
  {
    if n == 0 then []
    else if n < 1000 then ShortGroup(n, i)
    else ShortGroups(n / 1000, i + 1) + ShortGroup(n % 1000, i)
  }

  /** The groups for the six digits `z` of chunk `j` under the long scale:
      chunk 0 keeps its short-scale groups; a higher chunk is read as one
      group, its short-scale groups run together and followed by
      `Scale(j)` ("million", "billion", ...). */
  function LongChunk(z: nat, j: nat): (gs: seq<Phrase>)
    requires z < 1000000 && j < ScaleCount
    ensures z == 0 <==> gs == []
    ensures z != 0 ==> StartsWithNumber(gs)
    ensures NonEmptyGroups(gs)
  {
    assert GroupCount(z, 1000) <= 2 by {
      assert z / 1000 / 1000 == 0;
    }
    if z == 0 then []
    else if j == 0 then ShortGroups(z, 0)
    else
      var sg := ShortGroups(z, 0);
      assert Flatten(sg) == sg[0] + Flatten(sg[1..]);
      [Flatten(sg) + [Scale(j)]]
  }

  /** The long-scale groups of `n`, in chunks of a million whose lowest has
      index `j`; chunks equal to zero are left out. */
  function LongGroups(n: nat, j: nat): (gs: seq<Phrase>)
    requires j + GroupCount(n, 1000000) <= ScaleCount
    ensures n == 0 <==> gs == []
    ensures n != 0 ==> StartsWithNumber(gs)
    ensures NonEmptyGroups(gs)
    decreases n
  {
    if n == 0 then []
    else if n < 1000000 then LongChunk(n, j)
    else LongGroups(n / 1000000, j + 1) + LongChunk(n % 1000000, j)
  }

  /** Digits `n / b` placed `b` times higher, and `n % b`, make up `n`. */
  lemma Place(n: nat, b: nat, p: nat)
    requires b >= 1
    ensures (n / b) * (b * p) + (n % b) * p == n * p
  {
    var q, r := n / b, n % b;
    assert n == b * q + r;
    calc {
      q * (b * p) + r * p;
      (b * q) * p + r * p;
      (b * q + r) * p;
    }
  }

  /** The group of the three digits `z` at index `i` is their words and
      then the index's scale word, and it is worth z * 1000^i. */
  lemma ShortGroupValue(z: nat, i: nat)
    requires 1 <= z < 1000 && i <= ScaleCount
    ensures ShortGroup(z, i) == [SubThousand(z) + (if i == 0 then [] else [Scale(i - 1)])]
    ensures GroupsValue(ShortGroup(z, i), true) == z * Pow(1000, i)
    ensures i <= 1 ==> GroupsValue(ShortGroup(z, i), false) == z * Pow(1000, i)
  {
    var g := ShortGroup(z, i)[0];
    GroupsValueSingle(g, true);
    GroupsValueSingle(g, false);
    SubThousandRun(0, z, true);
    SubThousandRun(0, z, false);
    if i > 0 {
      assert g == SubThousand(z) + [Scale(i - 1)];
      RunAppend(Tally(0, 0), SubThousand(z), [Scale(i - 1)], true);
      RunAppend(Tally(0, 0), SubThousand(z), [Scale(i - 1)], false);
    } else {
      assert g + [] == g;
    }
  }

  /** The short-scale groups of `n` starting at index `i` add up to
      n * 1000^i; so do they under the long scale while they stop below a
      million. */
  lemma {:induction false} ShortGroupsValue(n: nat, i: nat)
    requires i + GroupCount(n, 1000) <= ScaleCount + 1
    ensures GroupsValue(ShortGroups(n, i), true) == n * Pow(1000, i)
    ensures i + GroupCount(n, 1000) <= 2 ==> GroupsValue(ShortGroups(n, i), false) == n * Pow(1000, i)
    decreases n
  {
    if n == 0 {
    } else if n < 1000 {
      ShortGroupValue(n, i);
    } else {
      var q, r := n / 1000, n % 1000;
      var a, b := ShortGroups(q, i + 1), ShortGroup(r, i);
      assert ShortGroups(n, i) == a + b;
      var p := Pow(1000, i);
      assert Pow(1000, i + 1) == 1000 * p;
      ShortGroupsValue(q, i + 1);
      GroupsValueAppend(a, b, true);
      GroupsValueAppend(a, b, false);
      if r != 0 {
        ShortGroupValue(r, i);
      }
      assert GroupsValue(b, true) == r * p && (i <= 1 ==> GroupsValue(b, false) == r * p);
      Place(n, 1000, p);
    }
  }

  /** A number below a million read as short-scale groups and run together
      is worth the number. */
  lemma FlatShortRun(z: nat)
    requires 1 <= z < 1000000
    ensures GroupCount(z, 1000) <= 2
    ensures var t := Run(Tally(0, 0), Flatten(ShortGroups(z, 0)), false); t.done + t.current == z
  {
    assert z / 1000 / 1000 == 0;
    if z < 1000 {
      assert ShortGroups(z, 0) == [SubThousand(z)];
      FlattenOne(SubThousand(z));
      SubThousandRun(0, z, false);
    } else {
      var a, b := z / 1000, z % 1000;
      var top := SubThousand(a) + [Scale(0)];
      assert ShortGroups(a, 1) == [top];
      FlattenOne(top);
      FlattenAppend([top], ShortGroup(b, 0));
      SubThousandRun(0, a, false);
      RunAppend(Tally(0, 0), SubThousand(a), [Scale(0)], false);
      assert Run(Tally(0, 0), top, false) == Tally(a * 1000, 0);
      if b != 0 {
        FlattenOne(SubThousand(b));
        RunAppend(Tally(0, 0), top, SubThousand(b), false);
        SubThousandRun(a * 1000, b, false);
      } else {
        assert Flatten([top]) + Flatten<Word>([]) == top;
        assert Pow(1000, 1) == 1000;
      }
    }
  }

  /** Chunk `j` of the six digits `z` is worth z * (10^6)^j under the long
      scale. */
  lemma LongChunkValue(z: nat, j: nat)
    requires z < 1000000 && j < ScaleCount
    ensures GroupsValue(LongChunk(z, j), false) == z * Pow(1000000, j)
  {
    if z != 0 {
      FlatShortRun(z);
      if j == 0 {
        ShortGroupsValue(z, 0);
      } else {
        var f := Flatten(ShortGroups(z, 0));
        GroupsValueSingle(f + [Scale(j)], false);
        RunAppend(Tally(0, 0), f, [Scale(j)], false);
      }
    }
  }

  /** The long-scale groups of `n` starting at chunk `j` add up to
      n * (10^6)^j. */
  lemma {:induction false} LongGroupsValue(n: nat, j: nat)
    requires j + GroupCount(n, 1000000) <= ScaleCount
    ensures GroupsValue(LongGroups(n, j), false) == n * Pow(1000000, j)
    decreases n
  {
    if n == 0 {
    } else if n < 1000000 {
      LongChunkValue(n, j);
    } else {
      var q, r := n / 1000000, n % 1000000;
      LongGroupsValue(q, j + 1);
      GroupsValueAppend(LongGroups(q, j + 1), LongChunk(r, j), false);
      LongChunkValue(r, j);
      Place(n, 1000000, Pow(1000000, j));
    }
  }

  /** Whether the scale-word table can name `n` under the chosen scale. */
  predicate InRange(n: int, shortScale: bool)
  {
    if shortScale then GroupCount(Abs(n), 1000) <= ScaleCount + 1
    else GroupCount(Abs(n), 1000000) <= ScaleCount
  }

  /** The table reaches 10^150 under the short scale and 10^294 under the
      long one. */
  lemma InRangeBound(n: int, shortScale: bool)
    ensures InRange(n, shortScale) <==> Abs(n) < Limit(shortScale)
  {
    if shortScale {
      GroupCountBound(Abs(n), 1000, ScaleCount + 1);
    } else {
      GroupCountBound(Abs(n), 1000000, ScaleCount);
    }
  }

  /** One past the largest magnitude the scale-word table can name. */
  function Limit(shortScale: bool): nat
  {
    if shortScale then Pow(1000, ScaleCount + 1) else Pow(1000000, ScaleCount)
  }

  function Abs(n: int): nat
  {
    if n < 0 then -n else n
  }

  /** The groups naming a positive magnitude under the chosen scale. */
  function Magnitude(n: nat, shortScale: bool): (gs: seq<Phrase>)
    requires InRange(n, shortScale)
    ensures n == 0 <==> gs == []
    ensures n != 0 ==> StartsWithNumber(gs)
    ensures NonEmptyGroups(gs)
  {
    if shortScale then ShortGroups(n, 0) else LongGroups(n, 0)
  }

  /** The groups of a magnitude name exactly that number, under either scale. */
  lemma MagnitudeValue(n: nat, shortScale: bool)
    requires InRange(n, shortScale)
    ensures GroupsValue(Magnitude(n, shortScale), shortScale) == n
  {
    assert Pow(1000, 0) == 1 && Pow(1000000, 0) == 1;
    if shortScale {
      assert Magnitude(n, true) == ShortGroups(n, 0);
      ShortGroupsValue(n, 0);
    } else {
      assert Magnitude(n, false) == LongGroups(n, 0);
      LongGroupsValue(n, 0);
    }
  }

  /** The general cardinal reading: "zero", or the groups of the magnitude
      with "minus" in front of the first one when negative. */
  function Cardinal(n: int, shortScale: bool): (gs: seq<Phrase>)
    requires InRange(n, shortScale)
    ensures gs != [] && NonEmptyGroups(gs)
    ensures n == 0 ==> gs == [[Small(0)]]
    ensures n > 0 ==> gs == Magnitude(n, shortScale)
    ensures n < 0 ==> gs == Signed(Magnitude(-n, shortScale))
  {
    if n == 0 then [[Small(0)]]
    else if n < 0 then Signed(Magnitude(-n, shortScale))
    else Magnitude(n, shortScale)
  }

  /** The cardinal reading names the number, sign included. */
  lemma CardinalValue(n: int, shortScale: bool)
    requires InRange(n, shortScale)
    ensures NumberValue(Cardinal(n, shortScale), shortScale) == n
  {
    if n == 0 {
      RunOne(Tally(0, 0), Small(0), shortScale);
      GroupsValueSingle([Small(0)], shortScale);
    } else if n < 0 {
      MagnitudeValue(-n, shortScale);
      SignedValue(Magnitude(-n, shortScale), shortScale);
    } else {
      MagnitudeValue(n, shortScale);
    }
  }

  /** "minus" adds nothing to the value of the groups. */
  lemma SignedValue(gs: seq<Phrase>, shortScale: bool)
    requires gs != [] && NonEmptyGroups(gs)
    ensures GroupsValue(Signed(gs), shortScale) == GroupsValue(gs, shortScale)
  {
    var r := Signed(gs);
    RunCons(Tally(0, 0), Minus, gs[0], shortScale);
    assert r[1..] == gs[1..];
  }

  /** "minus" put in front of the first group. */
  function Signed(gs: seq<Phrase>): (r: seq<Phrase>)
    requires gs != [] && NonEmptyGroups(gs)
    ensures r != [] && NonEmptyGroups(r)
    ensures |r| == |gs| && r[0] == [Minus] + gs[0] && r[1..] == gs[1..]
  {
    var r := [[Minus] + gs[0]] + gs[1..];
    assert forall i :: 0 <= i < |r| ==> r[i] != [] by {
      forall i | 0 <= i < |r| ensures r[i] != [] {
        if i > 0 {
          assert r[i] == gs[i] && gs[i] in gs;
        }
      }
    }
    r
  }

  /** The spelling of each word of a group. */
  function Texts(p: Phrase): (ws: seq<string>)
    ensures |ws| == |p|
    ensures forall i :: 0 <= i < |p| ==> ws[i] == WordText(p[i])
  {
    seq(|p|, i requires 0 <= i < |p| => WordText(p[i]))
  }

  /** Each group's words joined by single spaces. */
  function Render(gs: seq<Phrase>): (ts: seq<string>)
    ensures |ts| == |gs|
    ensures forall i :: 0 <= i < |gs| ==> ts[i] == Unwords(Texts(gs[i]))
  {
    seq(|gs|, i requires 0 <= i < |gs| => Unwords(Texts(gs[i])))
  }

  /** The groups read aloud, separated by ", ". */
  function Spoken(gs: seq<Phrase>): string
  {
    JoinWith(", ", Render(gs))
  }

  /** A reading of one group is spoken as that group's words. */
  lemma SpokenSingle(g: Phrase)
    ensures Spoken([g]) == Unwords(Texts(g))
  {
    assert Render([g])[0] == Unwords(Texts(g));
  }

  lemma TextsConcat(p: Phrase, q: Phrase)
    ensures Texts(p + q) == Texts(p) + Texts(q)
  {
  }

  /** A reading of several groups is spoken as all but the last group,
      ", " and the last group. */
  lemma SpokenSnoc(gs: seq<Phrase>)
    requires |gs| >= 2
    ensures Spoken(gs) == Spoken(gs[..|gs| - 1]) + ", " + Unwords(Texts(gs[|gs| - 1]))
  {
    var k := |gs| - 1;
    assert Render(gs) == Render(gs[..k]) + [Unwords(Texts(gs[k]))];
    JoinWithAppend(", ", Render(gs[..k]), Unwords(Texts(gs[k])));
  }

  predicate IsPowerWord(w: Word)
  {
    w == Hundred || w.Scale?
  }

  /** The ordinal reading: only the last word changes, except that a bare
      "one hundred", "one thousand", "one million", ... drops the "one". */
  function Ordinalize(gs: seq<Phrase>): (os: seq<Phrase>)
    requires gs != [] && NonEmptyGroups(gs)
    ensures |os| == |gs| && NonEmptyGroups(os)
    ensures os[..|os| - 1] == gs[..|gs| - 1]
    ensures var l, m := gs[|gs| - 1], os[|os| - 1];
      m[|m| - 1] == Ordinal(l[|l| - 1]) &&
      (m[..|m| - 1] == l[..|l| - 1] ||
       (|gs| == 1 && |l| == 2 && l[0] == Small(1) && IsPowerWord(l[1]) && m == [Ordinal(l[1])]))
  {
    var k := |gs| - 1;
    var last := gs[k];
    assert last in gs;
    if |gs| == 1 && |last| == 2 && last[0] == Small(1) && IsPowerWord(last[1]) then
      [[Ordinal(last[1])]]
    else
      var os := gs[..k] + [last[..|last| - 1] + [Ordinal(last[|last| - 1])]];
      assert forall i :: 0 <= i < |os| ==> os[i] != [] by {
        forall i | 0 <= i < |os| ensures os[i] != [] {
          if i < k {
            assert os[i] == gs[i] && gs[i] in gs;
          }
        }
      }
      os
  }

  /** Turning the last word of a phrase into its ordinal keeps the phrase's value. */
  lemma OrdinalLastValue(p: Phrase, shortScale: bool)
    requires p != []
    ensures PhraseValue(p[..|p| - 1] + [Ordinal(p[|p| - 1])], shortScale) == PhraseValue(p, shortScale)
  {
    var j := |p| - 1;
    var t0 := Tally(0, 0);
    assert p == p[..j] + [p[j]];
    RunAppend(t0, p[..j], [p[j]], shortScale);
    RunAppend(t0, p[..j], [Ordinal(p[j])], shortScale);
    RunOne(Run(t0, p[..j], shortScale), p[j], shortScale);
    RunOne(Run(t0, p[..j], shortScale), Ordinal(p[j]), shortScale);
  }

  /** "hundredth" alone names the same number as "one hundred", and so on. */
  lemma BareOrdinalValue(w: Word, shortScale: bool)
    requires IsPowerWord(w)
    ensures PhraseValue([Ordinal(w)], shortScale) == PhraseValue([Small(1), w], shortScale)
  {
    RunCons(Tally(0, 0), Small(1), [w], shortScale);
    assert [Small(1), w] == [Small(1)] + [w];
    RunOne(Tally(0, 1), w, shortScale);
    RunOne(Tally(0, 0), Ordinal(w), shortScale);
  }

  /** An ordinal names the same number as the cardinal it is made from. */
  lemma OrdinalizeValue(gs: seq<Phrase>, shortScale: bool)
    requires gs != [] && NonEmptyGroups(gs) && gs[0] != [Minus]
    ensures NumberValue(Ordinalize(gs), shortScale) == NumberValue(gs, shortScale)
  {
    var os := Ordinalize(gs);
    OrdinalizeGroupsValue(gs, shortScale);
    var l, m := gs[0], os[0];
    assert l in gs;
    if |gs| == 1 && m[..|m| - 1] == l[..|l| - 1] && |l| >= 2 {
      assert m[0] == l[0];
    }
  }

  lemma OrdinalizeGroupsValue(gs: seq<Phrase>, shortScale: bool)
    requires gs != [] && NonEmptyGroups(gs)
    ensures GroupsValue(Ordinalize(gs), shortScale) == GroupsValue(gs, shortScale)
  {
    var os := Ordinalize(gs);
    var k := |gs| - 1;
    var l, m := gs[k], os[k];
    assert l in gs;
    if m[..|m| - 1] == l[..|l| - 1] {
      assert m == l[..|l| - 1] + [Ordinal(l[|l| - 1])];
      OrdinalLastValue(l, shortScale);
    } else {
      assert l == [Small(1), l[1]] && m == [Ordinal(l[1])];
      BareOrdinalValue(l[1], shortScale);
    }
    assert gs == gs[..k] + [l] && os == gs[..k] + [m];
    GroupsValueAppend(gs[..k], [l], shortScale);
    GroupsValueAppend(gs[..k], [m], shortScale);
    GroupsValueSingle(l, shortScale);
    GroupsValueSingle(m, shortScale);
  }

  /** The four-digit reading used for plain integers from 1010 to 1999,
      pairing the hundreds with the rest: "fourteen fifty six",
      "nineteen hundred", "nineteen oh five". */
  function Colloquial(n: int): (c: Option<Phrase>)
    ensures c.Some? <==> 1010 <= n <= 1999
    ensures c.Some? ==> c.value != [] && c.value[0] == Small(n / 100)
    ensures c.Some? ==> (n % 100 == 0 <==> c.value == [Small(n / 100), Hundred])
  {
    if n < 0 || n % 1000 == 0 || (n / 10) % 100 == 0 || !(10 <= n / 100 <= 19) then None
    else
      var hi, lo := n / 100, n % 100;
      if lo == 0 then Some([Small(hi), Hundred])
      else if lo < 10 then Some([Small(hi), Oh, Small(lo)])
      else
        assert ([Small(hi)] + SubHundred(lo))[1..] == SubHundred(lo);
        Some([Small(hi)] + SubHundred(lo))
  }

  /** After its leading hundreds word, the colloquial form names the last
      two digits. */
  lemma ColloquialValue(n: int)
    requires Colloquial(n).Some? && n % 100 != 0
    ensures PhraseValue(Colloquial(n).value[1..], true) == n % 100
  {
    var hi, lo := n / 100, n % 100;
    if lo < 10 {
      RunCons(Tally(0, 0), Oh, [Small(lo)], true);
      RunOne(Tally(0, 0), Small(lo), true);
      assert [Small(hi), Oh, Small(lo)][1..] == [Oh] + [Small(lo)];
    } else {
      SubHundredRun(0, 0, lo, true);
      assert ([Small(hi)] + SubHundred(lo))[1..] == SubHundred(lo);
    }
  }

  /** The word groups `pronounce_number` reads an integer as: the colloquial
      form when it applies, otherwise the cardinal, rewritten as an ordinal
      when asked. */
  function Reading(n: int, shortScale: bool, ordinals: bool): (gs: seq<Phrase>)
    requires InRange(n, shortScale)
    ensures gs != [] && NonEmptyGroups(gs)
    ensures !ordinals && Colloquial(n).Some? ==> gs == [Colloquial(n).value]
    ensures ordinals ==> gs == Ordinalize(Cardinal(n, shortScale))
    ensures !ordinals && Colloquial(n).None? ==> gs == Cardinal(n, shortScale)
  {
    if !ordinals && Colloquial(n).Some? then [Colloquial(n).value]
    else
      var gs := Cardinal(n, shortScale);
      if ordinals then Ordinalize(gs) else gs
  }

  /** Wherever the colloquial form does not apply, the reading names the
      number: ordinals name the same number as their cardinals. */
  lemma ReadingValue(n: int, shortScale: bool, ordinals: bool)
    requires InRange(n, shortScale)
    requires ordinals || Colloquial(n).None?
    ensures NumberValue(Reading(n, shortScale, ordinals), shortScale) == n
  {
    var gs := Cardinal(n, shortScale);
    CardinalValue(n, shortScale);
    if ordinals {
      assert gs[0] != [Minus] by {
        if n < 0 {
          assert gs[0] == [Minus] + Magnitude(-n, shortScale)[0];
        }
      }
      OrdinalizeValue(gs, shortScale);
    }
  }

  /** Zero is read "zero", and "zeroth" as an ordinal. */
  lemma ZeroReading(shortScale: bool, ordinals: bool)
    ensures InRange(0, shortScale)
    ensures Spoken(Reading(0, shortScale, ordinals)) == if ordinals then "zeroth" else "zero"
  {
    var w := if ordinals then Ordinal(Small(0)) else Small(0);
    assert Reading(0, shortScale, ordinals) == [[w]];
    SpokenSingle([w]);
    assert Texts([w]) == [WordText(w)];
  }

  /** The outcome of pronouncing a number: its words, or the scientific
      reading the source falls back to past the scale-word table (which is
      not part of this model). */
  datatype Pronounced = Spelled(text: string) | Scientific

  /** `pronounce_number` on an integer. */
  function PronounceNumber(n: int, shortScale: bool, ordinals: bool): (r: Pronounced)
    ensures r.Scientific? <==> !InRange(n, shortScale)
    ensures r.Spelled? ==> r.text == Spoken(Reading(n, shortScale, ordinals))
    ensures n == 0 ==> r == Spelled(if ordinals then "zeroth" else "zero")
  {
    if !InRange(n, shortScale) then Scientific
    else if n == 0 then
      ZeroReading(shortScale, ordinals);
      Spelled(Spoken(Reading(n, shortScale, ordinals)))
    else Spelled(Spoken(Reading(n, shortScale, ordinals)))
  }

  /** Below a hundred a number is read as its tens and units words alone,
      under either scale. */
  lemma BelowHundred(n: nat, shortScale: bool)
    requires 1 <= n < 100
    ensures PronounceNumber(n, shortScale, false) == Spelled(Unwords(Texts(SubHundred(n))))
  {
    assert InRange(n, shortScale) by {
      assert n / 1000 == 0 && n / 1000000 == 0;
    }
    assert Reading(n, shortScale, false) == [SubHundred(n)] by {
      assert Colloquial(n).None?;
      assert ShortGroups(n, 0) == [SubThousand(n)];
      assert LongGroups(n, 0) == LongChunk(n, 0);
    }
    SpokenSingle(SubHundred(n));
  }

  /** A non-integral value as the source sees it after `str()`: sign, whole
      part and the digits after the point, with no trailing zero. */
  datatype Decimal = Decimal(negative: bool, whole: nat, fraction: seq<nat>)

  predicate WellFormed(d: Decimal)
  {
    (forall i :: 0 <= i < |d.fraction| ==> d.fraction[i] < 10) &&
    (d.fraction != [] ==> d.fraction[|d.fraction| - 1] != 0) &&
    (d.negative ==> d.whole != 0 || d.fraction != [])
  }

  /** One word per digit: "two three four" for [2, 3, 4]. */
  function DigitNames(ds: seq<nat>): (ws: Phrase)
    requires forall i :: 0 <= i < |ds| ==> ds[i] < 10
    ensures |ws| == |ds|
    ensures forall i :: 0 <= i < |ds| ==> ws[i] == Small(ds[i])
  {
    seq(|ds|, i requires 0 <= i < |ds| => Small(ds[i]))
  }

  function Min(a: nat, b: nat): nat
  {
    if a < b then a else b
  }

  /** The digits after the point that are read out: at most `places`. */
  function Shown(d: Decimal, places: nat): (ds: seq<nat>)
    ensures |ds| == Min(places, |d.fraction|)
    ensures ds == d.fraction[..|ds|]
  {
    d.fraction[..Min(places, |d.fraction|)]
  }

  /** The word groups of a non-integral value: the whole part in general
      cardinal form ("zero" when it is 0, never the colloquial form), "minus"
      in front when negative, and "point" with the shown digits after the
      last group. */
  function DecimalReading(d: Decimal, places: nat, shortScale: bool): (gs: seq<Phrase>)
    requires WellFormed(d) && InRange(d.whole, shortScale)
    ensures gs != [] && NonEmptyGroups(gs)
    ensures var whole := if d.negative then Signed(Cardinal(d.whole, shortScale)) else Cardinal(d.whole, shortScale);
      var shown := Shown(d, places);
      |gs| == |whole| && gs[..|gs| - 1] == whole[..|whole| - 1] &&
      gs[|gs| - 1] == whole[|whole| - 1] + (if shown == [] then [] else [Point] + DigitNames(shown))
  {
    var base := Cardinal(d.whole, shortScale);
    var signed := if d.negative then Signed(base) else base;
    var shown := Shown(d, places);
    var last := |signed| - 1;
    if shown == [] then
      assert signed[last] + [] == signed[last];
      signed
    else
      var tail := [Point] + DigitNames(shown);
      var r := signed[..last] + [signed[last] + tail];
      assert forall i :: 0 <= i < |r| ==> r[i] != [] by {
        forall i | 0 <= i < |r| ensures r[i] != [] {
          if i < last {
            assert r[i] == signed[i];
          }
        }
      }
      r
  }

  /** `pronounce_number` on a non-integral value. */
  function PronounceDecimal(d: Decimal, places: nat, shortScale: bool): (r: Pronounced)
    requires WellFormed(d)
    ensures r.Scientific? <==> !InRange(d.whole, shortScale)
    ensures r.Spelled? ==> r.text == Spoken(DecimalReading(d, places, shortScale))
  {
    if !InRange(d.whole, shortScale) then Scientific
    else Spelled(Spoken(DecimalReading(d, places, shortScale)))
  }
}
