/** The `join_list` fixtures of the English tests. */
module ListsExamples {
  import opened Options
  import opened Text
  import opened Lists

  /** test/test_format.py:630-631 */
  lemma JoinNothing()
    ensures JoinList(None, "and", ",") == ""
    ensures JoinList(Some([]), "and", ",") == ""
  {
  }

  /** test/test_format.py:633 */
  lemma JoinOne()
    ensures JoinList(Some([Str("a")]), "and", ",") == "a"
  {
  }

  /** test/test_format.py:634-635 */
  lemma JoinTwo()
    ensures JoinList(Some([Str("a"), Str("b")]), "and", ",") == "a and b"
    ensures JoinList(Some([Str("a"), Str("b")]), "or", ",") == "a or b"
  {
  }

  lemma DisplaysABC()
    ensures Displays([Str("a"), Str("b"), Str("c")]) == ["a", "b", "c"]
  {
  }

  /** test/test_format.py:637-639 */
  lemma JoinThree()
    ensures JoinList(Some([Str("a"), Str("b"), Str("c")]), "and", ",") == "a, b and c"
    ensures JoinList(Some([Str("a"), Str("b"), Str("c")]), "or", ",") == "a, b or c"
    ensures JoinList(Some([Str("a"), Str("b"), Str("c")]), "or", ";") == "a; b or c"
  {
    DisplaysABC();
    assert ["a", "b", "c"][..2] == ["a", "b"];
  }

  /** test/test_format.py:640 */
  lemma JoinFour()
    ensures JoinList(Some([Str("a"), Str("b"), Str("c"), Str("d")]), "or", ",") == "a, b, c or d"
  {
    JoinListCons(Str("a"), [Str("b"), Str("c"), Str("d")], "or", ",");
    assert Displays([Str("b"), Str("c"), Str("d")]) == ["b", "c", "d"];
    assert ["b", "c", "d"][..2] == ["b", "c"];
    assert JoinList(Some([Str("b"), Str("c"), Str("d")]), "or", ",") == "b, c or d";
    assert [Str("a")] + [Str("b"), Str("c"), Str("d")] == [Str("a"), Str("b"), Str("c"), Str("d")];
  }

  lemma DigitStrings()
    ensures IntToString(1) == "1" && IntToString(3) == "3"
  {
  }

  /** test/test_format.py:642: numbers are shown in their decimal form. */
  lemma JoinMixed()
    ensures JoinList(Some([Num(1), Str("b"), Num(3), Str("d")]), "or", ",") == "1, b, 3 or d"
  {
    DigitStrings();
    JoinListCons(Num(1), [Str("b"), Num(3), Str("d")], "or", ",");
    assert Displays([Str("b"), Num(3), Str("d")]) == ["b", "3", "d"];
    assert ["b", "3", "d"][..2] == ["b", "3"];
    assert JoinList(Some([Str("b"), Num(3), Str("d")]), "or", ",") == "b, 3 or d";
    assert [Num(1)] + [Str("b"), Num(3), Str("d")] == [Num(1), Str("b"), Num(3), Str("d")];
  }
}
