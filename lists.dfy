/** `join_list`: items joined with a separator and a conjunction before the
    last one ("a, b and c"). */
module Lists {
  import opened Options
  import opened Text

  /** A list item: the joiner accepts strings and numbers alike and shows
      each in its display form. */
  datatype Item = Str(s: string) | Num(n: int)

  function Display(x: Item): string
  {
    match x
    case Str(s) => s
    case Num(n) => IntToString(n)
  }

  function Displays(xs: seq<Item>): (ss: seq<string>)
    ensures |ss| == |xs|
    ensures forall i :: 0 <= i < |xs| ==> ss[i] == Display(xs[i])
  {
    seq(|xs|, i requires 0 <= i < |xs| => Display(xs[i]))
  }

  /** Total length of a list of strings. */
  function TotalLength(ss: seq<string>): nat
    decreases |ss|
  {
    if ss == [] then 0 else |ss[0]| + TotalLength(ss[1..])
  }

  /** `join_list(items, conj, sep)`: nothing for an absent or empty list, the
      item itself for one, "a conj b" for two, and for more every item but
      the last joined by `sep` and a space, the last after " conj ". */
  function JoinList(items: Option<seq<Item>>, conj: string, sep: string): (r: string)
    ensures items.None? || items.value == [] ==> r == ""
    ensures items.Some? && |items.value| == 1 ==> r == Display(items.value[0])
    ensures items.Some? && |items.value| == 2 ==>
      r == Display(items.value[0]) + " " + conj + " " + Display(items.value[1])
  {
    match items
    case None => ""
    case Some(xs) =>
      if xs == [] then ""
      else if |xs| == 1 then Display(xs[0])
      else JoinMany(Displays(xs), conj, sep)
  }

  /** Two or more display strings: all but the last joined by `sep` and a
      space, then the conjunction between spaces and the last. */
  function JoinMany(ss: seq<string>, conj: string, sep: string): string
    requires |ss| >= 2
  {
    JoinWith(sep + " ", ss[..|ss| - 1]) + " " + conj + " " + ss[|ss| - 1]
  }

  lemma JoinManyCons(d: string, rs: seq<string>, conj: string, sep: string)
    requires |rs| >= 2
    ensures JoinMany([d] + rs, conj, sep) == d + sep + " " + JoinMany(rs, conj, sep)
  {
    var sep' := sep + " ";
    var ss := [d] + rs;
    var tail := rs[..|rs| - 1];
    assert ss[..|ss| - 1] == [d] + tail;
    assert ([d] + tail)[1..] == tail;
    assert ss[|ss| - 1] == rs[|rs| - 1];
  }

  lemma DisplaysCons(x: Item, rest: seq<Item>)
    ensures Displays([x] + rest) == [Display(x)] + Displays(rest)
  {
  }

  /** With three or more items the first is followed by the separator and
      the joined rest: the conjunction is used once, before the last item. */
  lemma JoinListCons(x: Item, rest: seq<Item>, conj: string, sep: string)
    requires |rest| >= 2
    ensures JoinList(Some([x] + rest), conj, sep) ==
      Display(x) + sep + " " + JoinList(Some(rest), conj, sep)
  {
    DisplaysCons(x, rest);
    JoinManyCons(Display(x), Displays(rest), conj, sep);
  }

  lemma {:induction false} JoinWithLength(sep: string, ss: seq<string>)
    requires ss != []
    ensures |JoinWith(sep, ss)| == TotalLength(ss) + (|ss| - 1) * |sep|
    decreases |ss|
  {
    if |ss| > 1 {
      JoinWithLength(sep, ss[1..]);
    } else {
      assert TotalLength(ss[1..]) == 0;
    }
  }

  lemma {:induction false} TotalLengthSplit(ss: seq<string>)
    requires ss != []
    ensures TotalLength(ss) == TotalLength(ss[..|ss| - 1]) + |ss[|ss| - 1]|
    decreases |ss|
  {
    if |ss| > 1 {
      TotalLengthSplit(ss[1..]);
      assert ss[1..][..|ss| - 2] == ss[..|ss| - 1][1..];
    } else {
      assert ss[..0] == [];
    }
  }

  /** Nothing is lost or added: the output holds every item's text, one
      separator and space between each of the first items, and the
      conjunction between spaces once. */
  lemma JoinListLength(xs: seq<Item>, conj: string, sep: string)
    requires |xs| >= 2
    ensures |JoinList(Some(xs), conj, sep)| ==
      TotalLength(Displays(xs)) + (|xs| - 2) * (|sep| + 1) + |conj| + 2
  {
    var ss := Displays(xs);
    assert JoinList(Some(xs), conj, sep) == JoinMany(ss, conj, sep);
    JoinWithLength(sep + " ", ss[..|ss| - 1]);
    TotalLengthSplit(ss);
  }
}
