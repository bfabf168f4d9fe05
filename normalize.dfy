/** English `normalize(text, remove_articles)`: contractions expanded,
    number words written as digits, articles dropped when asked, and runs
    of spaces collapsed. Every stage splits the text into space-separated
    words and joins its result back with single spaces. */
module Normalize {
  import opened Options
  import opened Text
  import opened Extract
  import opened ContractionTable

  /** The words a word stands for: a contraction's expansion, otherwise
      the word itself. */
  function Expansion(w: string): (r: seq<string>)
    requires IsWord(w)
    ensures forall x <- r :: IsWord(x)
  {
    match Contraction(w)
    case Some(e) => Words(e)
    case None => [w]
  }

  function ExpandAll(ws: seq<string>): (r: seq<string>)
    requires forall w <- ws :: IsWord(w)
    ensures forall x <- r :: IsWord(x)
    decreases |ws|
  {
    if ws == [] then []
    else
      assert ws[0] in ws;
      Expansion(ws[0]) + ExpandAll(ws[1..])
  }

  /** Stage one: each contraction replaced by its expansion; the result's
      words are the input's words, each expanded, in order. */
  function ExpandContractions(text: string): (r: string)
    ensures Words(r) == ExpandAll(Words(text))
    ensures SingleSpaced(r)
  {
    var es := ExpandAll(Words(text));
    WordsUnwords(es);
    JoinWithNoDoubleSpace(es);
    Unwords(es)
  }

  /** What stage two writes for a word or a run of number words. */
  datatype Piece = Number(n: int) | Plain(w: string)

  function Closed(cur: Option<Run>): (ps: seq<Piece>)
    ensures |ps| == |Close(cur)|
  {
    match cur
    case None => []
    case Some(run) => [Number(Value(run))]
  }

  function Pending(sign: Option<string>): seq<Piece>
  {
    match sign
    case None => []
    case Some(w) => [Plain(w)]
  }

  /** Reads the words `ws`, whose tokens are `ts`, run by run as `Scan`
      does, writing each run as one number and every other word as it
      is. A sign word is held back until the next word shows whether it
      signs a number (it is then part of that number) or not (it is then
      written as a word); an "and" inside a run is part of the run. */
  function Digitize(ws: seq<string>, ts: seq<Token>, cur: Option<Run>, sign: Option<string>): (ps: seq<Piece>)
    requires |ws| == |ts|
    decreases |ts|
  {
    if ts == [] then Closed(cur) + Pending(sign)
    else
      var t := ts[0];
      if cur.Some? && Follows(cur.value.last, t) then
        Digitize(ws[1..], ts[1..], Some(Add(cur.value, t)), None)
      else if cur.Some? && t.AndWord? && (cur.value.last.HundredWord? || cur.value.last.ScaleWord?)
              && |ts| > 1 && Follows(cur.value.last, ts[1]) then
        Digitize(ws[1..], ts[1..], cur, None)
      else if IsNumber(t) then
        Closed(cur) + Digitize(ws[1..], ts[1..], Some(Start(t, sign.Some?)), None)
      else if t.SignWord? then
        Closed(cur) + Pending(sign) + Digitize(ws[1..], ts[1..], None, Some(ws[0]))
      else
        Closed(cur) + Pending(sign) + [Plain(ws[0])] + Digitize(ws[1..], ts[1..], None, None)
  }

  function RenderPiece(p: Piece): string
  {
    match p
    case Number(n) => IntToString(n)
    case Plain(w) => w
  }

  function Render(ps: seq<Piece>): (r: seq<string>)
    ensures |r| == |ps|
  {
    seq(|ps|, i requires 0 <= i < |ps| => RenderPiece(ps[i]))
  }

  /** The words stage two writes for the words `ws`. */
  function DigitWords(ws: seq<string>): seq<string>
  {
    Render(Digitize(ws, Tokens(MapLower(ws), true), None, None))
  }

  /** The pieces stage two writes for a text: its words read with the
      short scale, ordinals not read. */
  function DigitPieces(text: string): seq<Piece>
  {
    var ws := Words(text);
    Digitize(ws, Tokens(MapLower(ws), true), None, None)
  }

  /** Stage two: number words written as digits; the result's words are
      what `DigitWords` writes for the input's words. */
  function NumbersToDigits(text: string): (r: string)
    ensures Words(r) == DigitWords(Words(text))
    ensures SingleSpaced(r)
  {
    var ds := DigitWords(Words(text));
    DigitWordsAreWords(Words(text));
    WordsUnwords(ds);
    JoinWithNoDoubleSpace(ds);
    Unwords(ds)
  }

  const Articles: set<string> := {"the", "a", "an"}

  function DropArticles(ws: seq<string>): seq<string>
    decreases |ws|
  {
    if ws == [] then []
    else if ws[0] in Articles then DropArticles(ws[1..])
    else [ws[0]] + DropArticles(ws[1..])
  }

  /** Dropping the articles keeps every other word and nothing else. */
  lemma {:induction false} DropArticlesKeeps(ws: seq<string>)
    ensures forall w <- DropArticles(ws) :: w in ws && w !in Articles
    ensures forall w <- ws :: w !in Articles ==> w in DropArticles(ws)
    decreases |ws|
  {
    if ws != [] {
      DropArticlesKeeps(ws[1..]);
      forall w | w in ws[1..] ensures w in ws { }
      assert ws == [ws[0]] + ws[1..];
    }
  }

  /** Stage three: the articles dropped; the result's words are the
      input's words that are not articles, in order. */
  function RemoveArticles(text: string): (r: string)
    ensures Words(r) == DropArticles(Words(text))
    ensures forall w <- Words(r) :: w !in Articles
  {
    var ks := DropArticles(Words(text));
    DropArticlesKeeps(Words(text));
    WordsUnwords(ks);
    Unwords(ks)
  }

  /** `normalize(text, remove_articles)`. */
  function Normalize(text: string, removeArticles: bool): string
  {
    var digits := NumbersToDigits(ExpandContractions(text));
    CollapseSpaces(if removeArticles then RemoveArticles(digits) else digits)
  }

  // ---------------------------------------------------------------------
  // Laws

  /** The numbers among the pieces, in order. */
  function NumbersOf(ps: seq<Piece>): (ns: seq<int>)
    ensures |ns| <= |ps|
    decreases |ps|
  {
    if ps == [] then []
    else (if ps[0].Number? then [ps[0].n] else []) + NumbersOf(ps[1..])
  }

  lemma {:induction false} NumbersOfAppend(ps: seq<Piece>, qs: seq<Piece>)
    ensures NumbersOf(ps + qs) == NumbersOf(ps) + NumbersOf(qs)
    decreases |ps|
  {
    if ps != [] {
      var h := if ps[0].Number? then [ps[0].n] else [];
      assert (ps + qs)[0] == ps[0];
      assert (ps + qs)[1..] == ps[1..] + qs;
      NumbersOfAppend(ps[1..], qs);
      calc {
        NumbersOf(ps + qs);
        h + NumbersOf(ps[1..] + qs);
        h + (NumbersOf(ps[1..]) + NumbersOf(qs));
        (h + NumbersOf(ps[1..])) + NumbersOf(qs);
      }
    } else {
      assert ps + qs == qs;
    }
  }

  lemma NumbersOfClosed(cur: Option<Run>, sign: Option<string>, ps: seq<Piece>)
    ensures NumbersOf(Closed(cur) + Pending(sign) + ps) == Close(cur) + NumbersOf(ps)
  {
    NumbersOfAppend(Closed(cur), Pending(sign));
    NumbersOfAppend(Closed(cur) + Pending(sign), ps);
  }

  /** Stage two writes, in order, exactly the numbers `Scan` reads from the
      same tokens: a pending sign word is the `sign` flag of `Scan`. */
  lemma {:induction false} DigitizeReadsAsScan(ws: seq<string>, ts: seq<Token>, cur: Option<Run>, sign: Option<string>)
    requires |ws| == |ts|
    ensures NumbersOf(Digitize(ws, ts, cur, sign)) == Scan(ts, cur, sign.Some?)
    decreases |ts|, 1
  {
    if ts == [] {
      NumbersOfClosed(cur, sign, []);
    } else {
      var t := ts[0];
      if cur.Some? && Follows(cur.value.last, t) {
        DigitizeReadsAsScan(ws[1..], ts[1..], Some(Add(cur.value, t)), None);
      } else if cur.Some? && t.AndWord? && (cur.value.last.HundredWord? || cur.value.last.ScaleWord?)
                && |ts| > 1 && Follows(cur.value.last, ts[1]) {
        DigitizeReadsAsScan(ws[1..], ts[1..], cur, None);
      } else if IsNumber(t) {
        StartingStep(ws, ts, cur, sign);
      } else if t.SignWord? {
        SignStep(ws, ts, cur, sign);
      } else {
        PlainStep(ws, ts, cur, sign);
      }
    }
  }

  /** `DigitizeReadsAsScan` for a number word that starts a new run. */
  lemma {:induction false} StartingStep(ws: seq<string>, ts: seq<Token>, cur: Option<Run>, sign: Option<string>)
    requires |ws| == |ts| && ts != []
    requires !(cur.Some? && Follows(cur.value.last, ts[0]))
    requires !(cur.Some? && ts[0].AndWord? && (cur.value.last.HundredWord? || cur.value.last.ScaleWord?)
               && |ts| > 1 && Follows(cur.value.last, ts[1]))
    requires IsNumber(ts[0])
    ensures NumbersOf(Digitize(ws, ts, cur, sign)) == Scan(ts, cur, sign.Some?)
    decreases |ts|, 0
  {
    var run := Start(ts[0], sign.Some?);
    var rest := Digitize(ws[1..], ts[1..], Some(run), None);
    assert Digitize(ws, ts, cur, sign) == Closed(cur) + rest;
    DigitizeReadsAsScan(ws[1..], ts[1..], Some(run), None);
    NumbersOfClosed(cur, None, rest);
    assert Closed(cur) + Pending(None) + rest == Closed(cur) + rest;
  }

  /** `DigitizeReadsAsScan` for a sign word, which is held back. */
  lemma {:induction false} SignStep(ws: seq<string>, ts: seq<Token>, cur: Option<Run>, sign: Option<string>)
    requires |ws| == |ts| && ts != []
    requires !(cur.Some? && Follows(cur.value.last, ts[0]))
    requires !(cur.Some? && ts[0].AndWord? && (cur.value.last.HundredWord? || cur.value.last.ScaleWord?)
               && |ts| > 1 && Follows(cur.value.last, ts[1]))
    requires ts[0].SignWord?
    ensures NumbersOf(Digitize(ws, ts, cur, sign)) == Scan(ts, cur, sign.Some?)
    decreases |ts|, 0
  {
    var rest := Digitize(ws[1..], ts[1..], None, Some(ws[0]));
    assert Digitize(ws, ts, cur, sign) == Closed(cur) + Pending(sign) + rest;
    DigitizeReadsAsScan(ws[1..], ts[1..], None, Some(ws[0]));
    NumbersOfClosed(cur, sign, rest);
  }

  /** `DigitizeReadsAsScan` for any other word, which is written as it is. */
  lemma {:induction false} PlainStep(ws: seq<string>, ts: seq<Token>, cur: Option<Run>, sign: Option<string>)
    requires |ws| == |ts| && ts != []
    requires !(cur.Some? && Follows(cur.value.last, ts[0]))
    requires !(cur.Some? && ts[0].AndWord? && (cur.value.last.HundredWord? || cur.value.last.ScaleWord?)
               && |ts| > 1 && Follows(cur.value.last, ts[1]))
    requires !IsNumber(ts[0]) && !ts[0].SignWord?
    ensures NumbersOf(Digitize(ws, ts, cur, sign)) == Scan(ts, cur, sign.Some?)
    decreases |ts|, 0
  {
    var after := Digitize(ws[1..], ts[1..], None, None);
    var rest := [Plain(ws[0])] + after;
    assert Digitize(ws, ts, cur, sign) == Closed(cur) + Pending(sign) + rest;
    DigitizeReadsAsScan(ws[1..], ts[1..], None, None);
    NumbersOfAppend([Plain(ws[0])], after);
    assert NumbersOf(rest) == NumbersOf(after);
    NumbersOfClosed(cur, sign, rest);
    assert Scan(ts, cur, sign.Some?) == Close(cur) + Scan(ts[1..], None, false);
  }

  /** The numbers `normalize` writes for a text are the numbers
      `extract_numbers` finds in it (short scale). */
  lemma WritesExtractedNumbers(text: string)
    ensures NumbersOf(DigitPieces(text)) == ExtractNumbers(text, true)
  {
    WordsLower(text);
    var ws := Words(text);
    DigitizeReadsAsScan(ws, Tokens(MapLower(ws), true), None, None);
  }

  /** What stage two writes for a number reads back as that number. */
  lemma WrittenNumberReadsBack(n: nat, shortScale: bool)
    ensures Classify(IntToString(n), shortScale) == Digits(n)
  {
    DigitWordReading(NatToString(n), shortScale);
    ParseNatToString(n);
  }

  lemma RenderedWords(ps: seq<Piece>)
    requires forall p <- ps :: p.Plain? ==> IsWord(p.w)
    ensures forall x <- Render(ps) :: IsWord(x)
  {
    forall i | 0 <= i < |ps|
      ensures IsWord(Render(ps)[i])
    {
      assert ps[i] in ps;
      if ps[i].Number? {
        var n := ps[i].n;
        assert ' ' !in NatToString(if n < 0 then -n else n);
      }
    }
  }

  /** Every word stage two writes as it is comes from its input: one of the
      remaining words, or the sign word held back. */
  lemma {:induction false} DigitizeWritesInputWords(ws: seq<string>, ts: seq<Token>, cur: Option<Run>, sign: Option<string>)
    requires |ws| == |ts|
    ensures forall p <- Digitize(ws, ts, cur, sign) :: p.Plain? ==> p.w in ws || sign == Some(p.w)
    decreases |ts|
  {
    var ps := Digitize(ws, ts, cur, sign);
    if ts != [] {
      var t := ts[0];
      var prefix := Closed(cur) + Pending(sign);
      var next: Option<string>, rest;
      if cur.Some? && Follows(cur.value.last, t) {
        next := None;
        rest := Digitize(ws[1..], ts[1..], Some(Add(cur.value, t)), None);
        DigitizeWritesInputWords(ws[1..], ts[1..], Some(Add(cur.value, t)), None);
        assert ps == rest;
      } else if cur.Some? && t.AndWord? && (cur.value.last.HundredWord? || cur.value.last.ScaleWord?)
                && |ts| > 1 && Follows(cur.value.last, ts[1]) {
        rest := Digitize(ws[1..], ts[1..], cur, None);
        DigitizeWritesInputWords(ws[1..], ts[1..], cur, None);
        assert ps == rest;
      } else if IsNumber(t) {
        rest := Digitize(ws[1..], ts[1..], Some(Start(t, sign.Some?)), None);
        DigitizeWritesInputWords(ws[1..], ts[1..], Some(Start(t, sign.Some?)), None);
        assert ps == Closed(cur) + rest;
      } else if t.SignWord? {
        rest := Digitize(ws[1..], ts[1..], None, Some(ws[0]));
        DigitizeWritesInputWords(ws[1..], ts[1..], None, Some(ws[0]));
        assert ps == prefix + rest;
      } else {
        rest := Digitize(ws[1..], ts[1..], None, None);
        DigitizeWritesInputWords(ws[1..], ts[1..], None, None);
        assert ps == prefix + [Plain(ws[0])] + rest;
      }
      forall w | w in ws[1..] ensures w in ws { }
    }
  }

  /** Stage two writes words only. */
  lemma DigitWordsAreWords(ws: seq<string>)
    requires forall w <- ws :: IsWord(w)
    ensures forall x <- DigitWords(ws) :: IsWord(x)
  {
    var ts := Tokens(MapLower(ws), true);
    DigitizeWritesInputWords(ws, ts, None, None);
    RenderedWords(Digitize(ws, ts, None, None));
  }

  /** Splitting and joining between the stages changes nothing: `normalize`
      is one pass over the text's words. */
  lemma NormalizeByWords(text: string, removeArticles: bool)
    ensures var ds := DigitWords(ExpandAll(Words(text)));
            Normalize(text, removeArticles) == Unwords(if removeArticles then DropArticles(ds) else ds)
  {
    var es := ExpandAll(Words(text));
    WordsUnwords(es);
    var ds := DigitWords(es);
    DigitWordsAreWords(es);
    WordsUnwords(ds);
    if removeArticles {
      DropArticlesKeeps(ds);
      WordsUnwords(DropArticles(ds));
    }
  }

  /** With the articles removed the result has exactly the words of the
      result without removal that are not articles, in order. */
  lemma RemovesExactlyArticles(text: string)
    ensures Words(Normalize(text, true)) == DropArticles(Words(Normalize(text, false)))
    ensures forall w <- Words(Normalize(text, true)) :: w !in Articles
  {
    var ds := DigitWords(ExpandAll(Words(text)));
    NormalizeByWords(text, true);
    NormalizeByWords(text, false);
    DigitWordsAreWords(ExpandAll(Words(text)));
    WordsUnwords(ds);
    DropArticlesKeeps(ds);
    WordsUnwords(DropArticles(ds));
  }

  /** The result never holds two spaces in a row, nor a leading or trailing
      space. */
  lemma NormalizeSingleSpaced(text: string, removeArticles: bool)
    ensures SingleSpaced(Normalize(text, removeArticles))
  {
    var digits := NumbersToDigits(ExpandContractions(text));
    CollapsedHasSingleSpaces(if removeArticles then RemoveArticles(digits) else digits);
  }

  function Plains(ws: seq<string>): (ps: seq<Piece>)
    ensures |ps| == |ws|
  {
    seq(|ws|, i requires 0 <= i < |ws| => Plain(ws[i]))
  }

  /** Words without a number word among them are written as they are. */
  lemma {:induction false} DigitizeWithoutNumbers(ws: seq<string>, ts: seq<Token>, sign: Option<string>)
    requires |ws| == |ts| && forall i :: 0 <= i < |ts| ==> !IsNumber(ts[i])
    ensures Digitize(ws, ts, None, sign) == Pending(sign) + Plains(ws)
    decreases |ts|
  {
    if ts != [] {
      assert forall i :: 0 <= i < |ts[1..]| ==> !IsNumber(ts[1..][i]) by {
        forall i | 0 <= i < |ts[1..]| ensures !IsNumber(ts[1..][i]) { assert ts[1..][i] == ts[i + 1]; }
      }
      var next := if ts[0].SignWord? then Some(ws[0]) else None;
      NonNumberStep(ws, ts, sign);
      DigitizeWithoutNumbers(ws[1..], ts[1..], next);
      PlainsCons(ws);
      var tail := Plains(ws[1..]);
      if ts[0].SignWord? {
        assert Digitize(ws, ts, None, sign) == Pending(sign) + ([Plain(ws[0])] + tail);
      } else {
        assert Digitize(ws, ts, None, sign) == Pending(sign) + [Plain(ws[0])] + ([] + tail);
      }
    }
  }

  /** One word that is not a number word: a sign word is held back, any
      other word is written, and no run is open afterwards. */
  lemma NonNumberStep(ws: seq<string>, ts: seq<Token>, sign: Option<string>)
    requires |ws| == |ts| && ts != [] && !IsNumber(ts[0])
    ensures ts[0].SignWord? ==>
      Digitize(ws, ts, None, sign) == Pending(sign) + Digitize(ws[1..], ts[1..], None, Some(ws[0]))
    ensures !ts[0].SignWord? ==>
      Digitize(ws, ts, None, sign) == Pending(sign) + [Plain(ws[0])] + Digitize(ws[1..], ts[1..], None, None)
  {
    assert Closed(None) + Pending(sign) == Pending(sign);
    assert Digitize(ws, ts, None, sign) ==
      if ts[0].SignWord? then Closed(None) + Pending(sign) + Digitize(ws[1..], ts[1..], None, Some(ws[0]))
      else Closed(None) + Pending(sign) + [Plain(ws[0])] + Digitize(ws[1..], ts[1..], None, None);
  }

  lemma PlainsCons(ws: seq<string>)
    requires ws != []
    ensures Plains(ws) == [Plain(ws[0])] + Plains(ws[1..])
  {
  }

  /** Words none of which is a number word are written as they are. */
  lemma DigitWordsWithoutNumbers(ws: seq<string>)
    requires forall w <- ws :: !IsNumber(Classify(Lower(w), true))
    ensures DigitWords(ws) == ws
  {
    var ts := Tokens(MapLower(ws), true);
    forall i | 0 <= i < |ts|
      ensures !IsNumber(ts[i])
    {
      TokensAt(MapLower(ws), true, i);
      assert ws[i] in ws;
    }
    DigitizeWithoutNumbers(ws, ts, None);
    assert Render(Plains(ws)) == ws;
  }

  /** A text none of whose words, once expanded, is a number word is
      written back expanded, single-spaced, and without articles when they
      are to be removed. */
  lemma WithoutNumberWords(text: string, removeArticles: bool)
    requires forall x <- ExpandAll(Words(text)) :: !IsNumber(Classify(Lower(x), true))
    ensures Normalize(text, removeArticles) ==
      Unwords(if removeArticles then DropArticles(ExpandAll(Words(text))) else ExpandAll(Words(text)))
  {
    DigitWordsWithoutNumbers(ExpandAll(Words(text)));
    NormalizeByWords(text, removeArticles);
  }

  /** Expanding a word more expands the text word by word: the last
      word's expansion comes last. */
  lemma {:induction false} ExpandAllSnoc(ws: seq<string>, w: string)
    requires (forall x <- ws :: IsWord(x)) && IsWord(w)
    ensures ExpandAll(ws + [w]) == ExpandAll(ws) + Expansion(w)
    decreases |ws|
  {
    if ws == [] {
      assert ws + [w] == [w];
    } else {
      assert (ws + [w])[0] == ws[0];
      assert (ws + [w])[1..] == ws[1..] + [w];
      forall x | x in ws[1..] ensures IsWord(x) { assert x in ws; }
      ExpandAllSnoc(ws[1..], w);
    }
  }

  /** A text read one more word along: that word's expansion comes last. */
  lemma ExpandedWordsNext(s: string, p: string, g: nat, w: string, e: seq<string>, x: seq<string>)
    requires g >= 1 && IsWord(w) && s == p + (Spaces(g) + w)
    requires ExpandAll(Words(p)) == e && Expansion(w) == x
    ensures ExpandAll(Words(s)) == e + x
  {
    WordsNext(s, p, g, w);
    ExpandAllSnoc(Words(p), w);
  }

  /** A text read one more word along, that word not a contraction: the
      word comes last, as it is. */
  lemma KeptWordNext(s: string, p: string, g: nat, w: string, e: seq<string>)
    requires g >= 1 && IsWord(w) && Contraction(w).None? && s == p + (Spaces(g) + w)
    requires ExpandAll(Words(p)) == e
    ensures ExpandAll(Words(s)) == e + [w]
  {
    ExpandedWordsNext(s, p, g, w, e, [w]);
  }

  /** The first word of a text: its expansion. */
  lemma ExpandedWordsFirst(w: string, x: seq<string>)
    requires IsWord(w) && Expansion(w) == x
    ensures ExpandAll(Words(w)) == x
  {
    WordsOfWordThen(w, "");
    assert w + "" == w;
    ExpandAllSnoc([], w);
    assert [] + [w] == [w];
  }

  /** Words that are not contractions are kept as they are. */
  lemma {:induction false} ExpandAllKeeps(ws: seq<string>)
    requires forall w <- ws :: IsWord(w) && Contraction(w).None?
    ensures ExpandAll(ws) == ws
    decreases |ws|
  {
    if ws != [] {
      assert ws[0] in ws;
      assert forall w <- ws[1..] :: w in ws;
      ExpandAllKeeps(ws[1..]);
    }
  }

  /** Text with neither contractions nor number words only has its spaces
      collapsed ("this is an extra test" without article removal). */
  lemma PlainTextUnchanged(text: string)
    requires forall w <- Words(text) :: Contraction(w).None? && !IsNumber(Classify(Lower(w), true))
    ensures Normalize(text, false) == CollapseSpaces(text)
  {
    ExpandAllKeeps(Words(text));
    WithoutNumberWords(text, false);
  }
}
