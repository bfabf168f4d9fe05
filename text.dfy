/** Plain string helpers shared by the renderers and the parser: splitting on
    spaces, joining, ASCII lower-casing and decimal digits. */
module Text {

  /** Joins `ws` with `sep` between consecutive items (Python's `sep.join(ws)`). */
  function JoinWith(sep: string, ws: seq<string>): (r: string)
    ensures ws == [] ==> r == ""
    ensures |ws| == 1 ==> r == ws[0]
    decreases |ws|
  {
    if ws == [] then ""
    else if |ws| == 1 then ws[0]
    else ws[0] + sep + JoinWith(sep, ws[1..])
  }

  /** Words joined by single spaces. */
  function Unwords(ws: seq<string>): string
  {
    JoinWith(" ", ws)
  }

  /** The concatenation of a sequence of lists. */
  function Flatten<T>(ps: seq<seq<T>>): (r: seq<T>)
    ensures ps == [] ==> r == []
    decreases |ps|
  {
    if ps == [] then [] else ps[0] + Flatten(ps[1..])
  }

  lemma {:induction false} FlattenAppend<T>(ps: seq<seq<T>>, qs: seq<seq<T>>)
    ensures Flatten(ps + qs) == Flatten(ps) + Flatten(qs)
    decreases |ps|
  {
    if ps == [] {
      assert ps + qs == qs;
    } else {
      assert (ps + qs)[1..] == ps[1..] + qs;
      FlattenAppend(ps[1..], qs);
    }
  }

  /** Extending the last list extends the concatenation. */
  lemma {:induction false} FlattenExtendLast<T>(ps: seq<seq<T>>, qs: seq<seq<T>>, x: seq<T>)
    requires |qs| == |ps| > 0
    requires qs[..|qs| - 1] == ps[..|ps| - 1] && qs[|qs| - 1] == ps[|ps| - 1] + x
    ensures Flatten(qs) == Flatten(ps) + x
    decreases |ps|
  {
    if |ps| == 1 {
      assert Flatten(qs) == qs[0] + Flatten(qs[1..]);
      assert Flatten(ps) == ps[0] + Flatten(ps[1..]);
    } else {
      assert qs[0] == qs[..|qs| - 1][0];
      assert qs[1..][..|qs| - 2] == ps[1..][..|ps| - 2] by {
        assert qs[1..][..|qs| - 2] == qs[..|qs| - 1][1..];
        assert ps[1..][..|ps| - 2] == ps[..|ps| - 1][1..];
      }
      FlattenExtendLast(ps[1..], qs[1..], x);
    }
  }

  lemma {:induction false} JoinWithAppend(sep: string, ws: seq<string>, w: string)
    requires ws != []
    ensures JoinWith(sep, ws + [w]) == JoinWith(sep, ws) + sep + w
    decreases |ws|
  {
    if |ws| == 1 {
      assert ws + [w] == [ws[0], w];
    } else {
      assert (ws + [w])[1..] == ws[1..] + [w];
      JoinWithAppend(sep, ws[1..], w);
    }
  }

  /** Joining two non-empty lists is joining each and putting `sep` between. */
  lemma {:induction false} JoinWithConcat(sep: string, ws: seq<string>, vs: seq<string>)
    requires ws != [] && vs != []
    ensures JoinWith(sep, ws + vs) == JoinWith(sep, ws) + sep + JoinWith(sep, vs)
    decreases |ws|
  {
    if |ws| == 1 {
      assert (ws + vs)[1..] == vs;
    } else {
      assert (ws + vs)[1..] == ws[1..] + vs;
      JoinWithConcat(sep, ws[1..], vs);
    }
  }

  /** Appending a text made of two parts around a separator appends the
      parts in turn. */
  lemma AppendTwoParts(s: string, a: string, sep: string, b: string)
    ensures s + (a + sep + b) == s + a + sep + b
  {
  }

  predicate IsWord(w: string)
  {
    w != "" && ' ' !in w
  }

  /** Length of the word that starts `s`. */
  function WordLen(s: string): (k: nat)
    requires s != "" && s[0] != ' '
    ensures 1 <= k <= |s| && ' ' !in s[..k] && (k < |s| ==> s[k] == ' ')
    decreases |s|
  {
    if |s| == 1 || s[1] == ' ' then 1
    else
      var k := 1 + WordLen(s[1..]);
      assert s[..k] == [s[0]] + s[1..][..k - 1];
      k
  }

  /** The space-separated words of `s`, runs of spaces and leading or
      trailing spaces producing no empty words. */
  function Words(s: string): (ws: seq<string>)
    ensures forall w <- ws :: IsWord(w)
    decreases |s|
  {
    if s == "" then []
    else if s[0] == ' ' then Words(s[1..])
    else
      var k := WordLen(s);
      [s[..k]] + Words(s[k..])
  }

  /** `k` spaces. */
  function Spaces(k: nat): (s: string)
    ensures |s| == k && forall i :: 0 <= i < k ==> s[i] == ' '
  {
    if k == 0 then "" else " " + Spaces(k - 1)
  }

  /** Words laid out with `gaps[i]` spaces before the i-th word and
      `gaps[|ws|]` after the last. */
  function Layout(gaps: seq<nat>, ws: seq<string>): string
    requires |gaps| == |ws| + 1
    decreases |ws|
  {
    if ws == [] then Spaces(gaps[0])
    else Spaces(gaps[0]) + ws[0] + Layout(gaps[1..], ws[1..])
  }

  lemma {:induction false} WordsAfterSpaces(k: nat, s: string)
    ensures Words(Spaces(k) + s) == Words(s)
    decreases k
  {
    if k > 0 {
      var t := Spaces(k) + s;
      assert t[0] == ' ' && t != "";
      assert t[1..] == Spaces(k - 1) + s;
      assert Words(t) == Words(t[1..]);
      WordsAfterSpaces(k - 1, s);
    } else {
      assert Spaces(k) + s == s;
    }
  }

  lemma WordsOfWordThen(w: string, rest: string)
    requires IsWord(w)
    requires rest == "" || rest[0] == ' '
    ensures Words(w + rest) == [w] + Words(rest)
  {
    WordLenOfJoin(w, rest);
    assert (w + rest)[..|w|] == w && (w + rest)[|w|..] == rest;
  }

  /** However many spaces separate, lead or trail the words, splitting
      gives back exactly the words. */
  lemma {:induction false} WordsLayout(gaps: seq<nat>, ws: seq<string>)
    requires |gaps| == |ws| + 1
    requires forall w <- ws :: IsWord(w)
    requires forall i :: 0 < i < |ws| ==> gaps[i] >= 1
    ensures Words(Layout(gaps, ws)) == ws
    decreases |ws|
  {
    if ws == [] {
      WordsAfterSpaces(gaps[0], "");
      assert Spaces(gaps[0]) + "" == Spaces(gaps[0]);
    } else {
      var rest := Layout(gaps[1..], ws[1..]);
      assert forall w <- ws[1..] :: IsWord(w);
      WordsLayout(gaps[1..], ws[1..]);
      assert rest == "" || rest[0] == ' ' by {
        if |ws| > 1 {
          assert gaps[1] >= 1;
          assert rest == Spaces(gaps[1]) + ws[1] + Layout(gaps[2..], ws[2..]);
        }
      }
      assert ws[0] in ws;
      WordsOfWordThen(ws[0], rest);
      assert Layout(gaps, ws) == Spaces(gaps[0]) + (ws[0] + rest);
      WordsAfterSpaces(gaps[0], ws[0] + rest);
    }
  }

  /** The lower-cased words of a text that ends in one more word, after
      at least one space: those of the text before it, then that word. */
  lemma LowerWordsNext(s: string, p: string, g: nat, w: string, lw: string)
    requires g >= 1 && Lower(w) == lw && IsWord(lw) && s == p + (Spaces(g) + w)
    ensures Words(Lower(s)) == Words(Lower(p)) + [lw]
  {
    LowerAppend(p, Spaces(g) + w);
    LowerAppend(Spaces(g), w);
    LowerSpaces(g);
    WordsAppend(Lower(p), Spaces(g) + lw);
    WordsAfterSpaces(g, lw);
    WordsOfWordThen(lw, "");
    assert lw + "" == lw;
  }

  /** The same, for a text whose part before the last word ends in a
      space. */
  lemma LowerWordsAfterSpace(s: string, p: string, w: string, lw: string)
    requires p != "" && p[|p| - 1] == ' ' && Lower(w) == lw && IsWord(lw) && s == p + w
    ensures Words(Lower(s)) == Words(Lower(p)) + [lw]
  {
    LowerAppend(p, w);
    WordsAppend(Lower(p), lw);
    WordsOfWordThen(lw, "");
    assert lw + "" == lw;
  }

  /** A single word is its own only word. */
  lemma LowerWordsSingle(w: string, lw: string)
    requires Lower(w) == lw && IsWord(lw)
    ensures Words(Lower(w)) == [lw]
  {
    WordsOfWordThen(lw, "");
    assert lw + "" == lw;
  }

  /** Trailing spaces add no word. */
  lemma LowerWordsTrailing(s: string, p: string, g: nat)
    requires s == p + Spaces(g)
    ensures Words(Lower(s)) == Words(Lower(p))
  {
    LowerAppend(p, Spaces(g));
    LowerSpaces(g);
    WordsAppend(Lower(p), Spaces(g));
    WordsAfterSpaces(g, "");
    assert Spaces(g) + "" == Spaces(g);
    assert Words(Lower(p)) + [] == Words(Lower(p));
  }

  /** The words of a text that ends in one more word, after at least one
      space: those of the text before it, then that word. */
  lemma WordsNext(s: string, p: string, g: nat, w: string)
    requires g >= 1 && IsWord(w) && s == p + (Spaces(g) + w)
    ensures Words(s) == Words(p) + [w]
  {
    WordsAppend(p, Spaces(g) + w);
    WordsAfterSpaces(g, w);
    WordsOfWordThen(w, "");
    assert w + "" == w;
  }

  /** The same, for a text whose part before the last word ends in a
      space. */
  lemma WordsAfterSpace(s: string, p: string, w: string)
    requires p != "" && p[|p| - 1] == ' ' && IsWord(w) && s == p + w
    ensures Words(s) == Words(p) + [w]
  {
    WordsAppend(p, w);
    WordsOfWordThen(w, "");
    assert w + "" == w;
  }

  /** Leading and trailing spaces add no word. */
  lemma WordsTrimmed(s: string, g: nat, p: string, h: nat)
    requires s == Spaces(g) + p + Spaces(h)
    ensures Words(s) == Words(p)
  {
    WordsAppend(p, Spaces(h));
    WordsAfterSpaces(h, "");
    assert Spaces(h) + "" == Spaces(h);
    assert Words(p) + [] == Words(p);
    assert s == Spaces(g) + (p + Spaces(h));
    WordsAfterSpaces(g, p + Spaces(h));
  }

  /** Collapses runs of spaces to one and trims both ends. */
  function CollapseSpaces(s: string): string
  {
    Unwords(Words(s))
  }

  lemma {:induction false} WordLenOfJoin(w: string, rest: string)
    requires IsWord(w)
    requires rest == "" || rest[0] == ' '
    ensures WordLen(w + rest) == |w|
    decreases |w|
  {
    if |w| == 1 {
    } else {
      assert (w + rest)[1..] == w[1..] + rest;
      assert w[1] in w;
      WordLenOfJoin(w[1..], rest);
    }
  }

  /** A word that ends inside `p` ends at the same place in `p + x`. */
  lemma {:induction false} WordLenPrefix(p: string, x: string)
    requires p != "" && p[0] != ' ' && WordLen(p) < |p|
    ensures WordLen(p + x) == WordLen(p)
    decreases |p|
  {
    var s := p + x;
    assert s[0] == p[0] && s[1] == p[1];
    if p[1] != ' ' {
      assert s[1..] == p[1..] + x;
      WordLenPrefix(p[1..], x);
    }
  }

  /** The first word of `p` is the first word of `p + x` when the two meet
      at a space. */
  lemma FirstWordOfAppend(p: string, x: string)
    requires p != "" && p[0] != ' '
    requires x == "" || p[|p| - 1] == ' ' || x[0] == ' '
    ensures WordLen(p + x) == WordLen(p)
  {
    var k := WordLen(p);
    if k < |p| {
      WordLenPrefix(p, x);
    } else {
      assert p[|p| - 1] in p[..k];
      assert p[..k] == p;
      WordLenOfJoin(p, x);
    }
  }

  /** Splitting a concatenation whose halves meet at a space splits each
      half. */
  lemma {:induction false} WordsAppend(p: string, x: string)
    requires p == "" || x == "" || p[|p| - 1] == ' ' || x[0] == ' '
    ensures Words(p + x) == Words(p) + Words(x)
    decreases |p|
  {
    var s := p + x;
    if p == "" {
      assert s == x;
    } else if p[0] == ' ' {
      assert s[1..] == p[1..] + x;
      WordsAppend(p[1..], x);
    } else {
      var k := WordLen(p);
      FirstWordOfAppend(p, x);
      assert s[..k] == p[..k];
      assert s[k..] == p[k..] + x;
      WordsAppend(p[k..], x);
    }
  }

  /** Splitting undoes joining with single spaces. */
  lemma {:induction false} WordsUnwords(ws: seq<string>)
    requires forall w <- ws :: IsWord(w)
    ensures Words(Unwords(ws)) == ws
    decreases |ws|
  {
    if ws == [] {
    } else if |ws| == 1 {
      var w := ws[0];
      WordLenOfJoin(w, "");
      assert w + "" == w;
      assert w[|w|..] == "";
    } else {
      var w := ws[0];
      var rest := Unwords(ws[1..]);
      var s := w + " " + rest;
      assert Unwords(ws) == s;
      assert s == w + (" " + rest);
      WordLenOfJoin(w, " " + rest);
      assert s[..|w|] == w;
      assert s[|w|..] == " " + rest;
      assert (" " + rest)[1..] == rest;
      WordsUnwords(ws[1..]);
    }
  }

  /** Collapsing is idempotent: a normalised string is its own normal form. */
  lemma CollapseIdempotent(s: string)
    ensures CollapseSpaces(CollapseSpaces(s)) == CollapseSpaces(s)
  {
    WordsUnwords(Words(s));
  }

  predicate SingleSpaced(r: string)
  {
    (r != "" ==> r[0] != ' ' && r[|r| - 1] != ' ') &&
    forall i :: 0 <= i < |r| - 1 && r[i] == ' ' ==> r[i + 1] != ' '
  }

  lemma {:induction false} JoinWithNoDoubleSpace(ws: seq<string>)
    requires forall w <- ws :: IsWord(w)
    ensures SingleSpaced(Unwords(ws))
    ensures ws != [] ==> Unwords(ws) != ""
    decreases |ws|
  {
    if |ws| > 1 {
      var w := ws[0];
      assert IsWord(w) by { assert ws[0] in ws; }
      var rest := Unwords(ws[1..]);
      JoinWithNoDoubleSpace(ws[1..]);
      var r := w + " " + rest;
      assert Unwords(ws) == r;
      forall i | 0 <= i < |w| ensures r[i] != ' ' {
        assert r[i] == w[i];
        assert w[i] in w;
      }
      forall i | |w| <= i < |r| - 1 && r[i] == ' '
        ensures r[i + 1] != ' '
      {
        if i == |w| {
          assert r[i + 1] == rest[0];
        } else {
          assert r[i] == rest[i - |w| - 1];
          assert r[i + 1] == rest[i - |w|];
        }
      }
      assert r[0] == w[0];
      assert r[|r| - 1] == rest[|rest| - 1];
    } else if |ws| == 1 {
      assert IsWord(ws[0]) by { assert ws[0] in ws; }
      forall i | 0 <= i < |ws[0]| ensures ws[0][i] != ' ' {
        assert ws[0][i] in ws[0];
      }
    }
  }

  lemma UnwordsTwo(a: string, b: string)
    ensures Unwords([a, b]) == a + " " + b
  {
    assert [a, b][1..] == [b];
  }

  lemma UnwordsThree(a: string, b: string, c: string)
    ensures Unwords([a, b, c]) == a + " " + b + " " + c
  {
    assert [a, b, c][1..] == [b, c];
    UnwordsTwo(b, c);
  }

  lemma {:induction false} JoinLength(ws: seq<string>)
    requires ws != []
    ensures |Unwords(ws)| >= |ws[0]|
    decreases |ws|
  {
    if |ws| > 1 {
      JoinLength(ws[1..]);
    }
  }

  /** What normalisation promises about spacing: no leading, trailing or
      doubled space is left. */
  lemma CollapsedHasSingleSpaces(s: string)
    ensures SingleSpaced(CollapseSpaces(s))
  {
    JoinWithNoDoubleSpace(Words(s));
  }

  function LowerChar(c: char): (d: char)
    ensures 'A' <= c <= 'Z' ==> 'a' <= d <= 'z'
    ensures !('A' <= c <= 'Z') ==> d == c
  {
    if 'A' <= c <= 'Z' then (c as int + 32) as char else c
  }

  /** ASCII lower-casing (no Unicode case folding). */
  function Lower(s: string): (r: string)
    ensures |r| == |s|
  {
    seq(|s|, i requires 0 <= i < |s| => LowerChar(s[i]))
  }

  /** Lower-casing distributes over concatenation. */
  lemma LowerAppend(a: string, b: string)
    ensures Lower(a + b) == Lower(a) + Lower(b)
  {
  }

  /** Spaces are left alone. */
  lemma LowerSpaces(k: nat)
    ensures Lower(Spaces(k)) == Spaces(k)
  {
  }

  /** Lower-casing twice is lower-casing once. */
  lemma LowerIdempotent(s: string)
    ensures Lower(Lower(s)) == Lower(s)
  {
  }

  /** Lower-casing keeps spaces where they are, so it commutes with
      splitting into words. */
  lemma {:induction false} WordsLower(s: string)
    ensures Words(Lower(s)) == MapLower(Words(s))
    decreases |s|
  {
    if s != "" {
      var l := Lower(s);
      if s[0] == ' ' {
        LowerSlice(s, 1, |s|);
        assert l[1..] == Lower(s[1..]);
        WordsLower(s[1..]);
      } else {
        var k := WordLen(s);
        LowerSlice(s, 0, k);
        LowerSlice(s, k, |s|);
        assert s[0..k] == s[..k] && s[k..|s|] == s[k..] && l[k..|s|] == l[k..];
        LowerWordLen(s);
        WordsLower(s[k..]);
        calc {
          Words(l);
          [l[..k]] + Words(l[k..]);
          [Lower(s[..k])] + MapLower(Words(s[k..]));
          { MapLowerCons(s[..k], Words(s[k..])); }
          MapLower([s[..k]] + Words(s[k..]));
        }
      }
    }
  }

  lemma MapLowerCons(w: string, ws: seq<string>)
    ensures MapLower([w] + ws) == [Lower(w)] + MapLower(ws)
  {
  }

  lemma LowerSlice(s: string, a: nat, b: nat)
    requires a <= b <= |s|
    ensures Lower(s)[a..b] == Lower(s[a..b])
  {
  }

  lemma {:induction false} LowerWordLen(s: string)
    requires s != "" && s[0] != ' '
    ensures Lower(s) != "" && Lower(s)[0] != ' ' && WordLen(Lower(s)) == WordLen(s)
    decreases |s|
  {
    if |s| > 1 && s[1] != ' ' {
      assert Lower(s)[1..] == Lower(s[1..]);
      LowerWordLen(s[1..]);
    }
  }

  /** Every word lower-cased. */
  function MapLower(ws: seq<string>): (r: seq<string>)
    ensures |r| == |ws|
    ensures forall i :: 0 <= i < |ws| ==> r[i] == Lower(ws[i])
  {
    seq(|ws|, i requires 0 <= i < |ws| => Lower(ws[i]))
  }

  predicate IsDigit(c: char)
  {
    '0' <= c <= '9'
  }

  predicate IsDigits(s: string)
  {
    s != "" && forall i :: 0 <= i < |s| ==> IsDigit(s[i])
  }

  function DigitChar(d: nat): (c: char)
    requires d < 10
    ensures IsDigit(c)
  {
    ('0' as int + d) as char
  }

  function DigitValue(c: char): (d: nat)
    requires IsDigit(c)
    ensures d < 10 && DigitChar(d) == c
  {
    c as int - '0' as int
  }

  /** Decimal representation of a natural number, without leading zeros
      (Python's `str(n)`). */
  function NatToString(n: nat): (s: string)
    ensures IsDigits(s)
    ensures s[0] == '0' ==> n == 0
    decreases n
  {
    if n < 10 then [DigitChar(n)] else NatToString(n / 10) + [DigitChar(n % 10)]
  }

  function IntToString(i: int): string
  {
    if i < 0 then "-" + NatToString(-i) else NatToString(i)
  }

  /** The value of a string of decimal digits. */
  function ParseNat(s: string): nat
    requires IsDigits(s)
    decreases |s|
  {
    if |s| == 1 then DigitValue(s[0])
    else ParseNat(s[..|s| - 1]) * 10 + DigitValue(s[|s| - 1])
  }

  /** Reading back a printed number gives the number. */
  lemma {:induction false} ParseNatToString(n: nat)
    ensures ParseNat(NatToString(n)) == n
    decreases n
  {
    if n >= 10 {
      var s := NatToString(n);
      assert s[..|s| - 1] == NatToString(n / 10);
      ParseNatToString(n / 10);
    }
  }

  /** Two-digit zero-padded form (`"%02d"`). */
  function Pad2(n: nat): (s: string)
    requires n < 100
    ensures |s| == 2 && IsDigits(s) && ParseNat(s) == n
  {
    var s := [DigitChar(n / 10), DigitChar(n % 10)];
    assert s[..1] == [DigitChar(n / 10)];
    s
  }
}
