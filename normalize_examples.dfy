/** The contractions the `normalize` assertions expand, looked up in the
    table and split into their words, and the other words of those
    assertions, which the table does not hold. */
module ContractionExamples {
  import opened Options
  import opened Text
  import opened ContractionTable
  import opened Normalize

  lemma LookupItAposs()
    ensures Contraction("it's") == Some("it is")
  {
  }

  lemma LookupThatAposs()
    ensures Contraction("that's") == Some("that is")
  {
  }

  lemma LookupAinApost()
    ensures Contraction("ain't") == Some("is not")
  {
  }

  lemma LookupGonna()
    ensures Contraction("gonna") == Some("going to")
  {
  }

  lemma LookupGotta()
    ensures Contraction("gotta") == Some("got to")
  {
  }

  lemma LookupHadnApost()
    ensures Contraction("hadn't") == Some("had not")
  {
  }

  lemma LookupHavenApost()
    ensures Contraction("haven't") == Some("have not")
  {
  }

  lemma LookupWonApost()
    ensures Contraction("won't") == Some("will not")
  {
  }

  lemma LookupWhats()
    ensures Contraction("whats") == Some("what is")
  {
  }

  lemma LookupWhoAposdAposve()
    ensures Contraction("who'd've") == Some("who would have")
  {
  }

  lemma LookupWonApostAposve()
    ensures Contraction("won't've") == Some("will not have")
  {
  }

  lemma LookupYAposall()
    ensures Contraction("y'all") == Some("you all")
  {
  }

  lemma LookupWouldnApost()
    ensures Contraction("wouldn't") == Some("would not")
  {
  }

  lemma LookupWhatAposs()
    ensures Contraction("what's") == Some("what is")
  {
  }

  lemma WordsItIsUpto1(s: string)
    requires s == "it"
    ensures Words(s) == ["it"]
  {
    WordsOfWordThen(s, "");
    assert s + "" == s;
  }

  lemma WordsItIsUpto2(s: string)
    requires s == "it is"
    ensures Words(s) == ["it", "is"]
  {
    var p := s[..2];
    WordsNext(s, p, 1, "is");
    WordsItIsUpto1(p);
  }

  lemma WordsThatIsUpto1(s: string)
    requires s == "that"
    ensures Words(s) == ["that"]
  {
    WordsOfWordThen(s, "");
    assert s + "" == s;
  }

  lemma WordsThatIsUpto2(s: string)
    requires s == "that is"
    ensures Words(s) == ["that", "is"]
  {
    var p := s[..4];
    WordsNext(s, p, 1, "is");
    WordsThatIsUpto1(p);
  }

  lemma WordsIsNotUpto1(s: string)
    requires s == "is"
    ensures Words(s) == ["is"]
  {
    WordsOfWordThen(s, "");
    assert s + "" == s;
  }

  lemma WordsIsNotUpto2(s: string)
    requires s == "is not"
    ensures Words(s) == ["is", "not"]
  {
    var p := s[..2];
    WordsNext(s, p, 1, "not");
    WordsIsNotUpto1(p);
  }

  lemma WordsGoingToUpto1(s: string)
    requires s == "going"
    ensures Words(s) == ["going"]
  {
    WordsOfWordThen(s, "");
    assert s + "" == s;
  }

  lemma WordsGoingToUpto2(s: string)
    requires s == "going to"
    ensures Words(s) == ["going", "to"]
  {
    var p := s[..5];
    WordsNext(s, p, 1, "to");
    WordsGoingToUpto1(p);
  }

  lemma WordsGotToUpto1(s: string)
    requires s == "got"
    ensures Words(s) == ["got"]
  {
    WordsOfWordThen(s, "");
    assert s + "" == s;
  }

  lemma WordsGotToUpto2(s: string)
    requires s == "got to"
    ensures Words(s) == ["got", "to"]
  {
    var p := s[..3];
    WordsNext(s, p, 1, "to");
    WordsGotToUpto1(p);
  }

  lemma WordsHadNotUpto1(s: string)
    requires s == "had"
    ensures Words(s) == ["had"]
  {
    WordsOfWordThen(s, "");
    assert s + "" == s;
  }

  lemma WordsHadNotUpto2(s: string)
    requires s == "had not"
    ensures Words(s) == ["had", "not"]
  {
    var p := s[..3];
    WordsNext(s, p, 1, "not");
    WordsHadNotUpto1(p);
  }

  lemma WordsHaveNotUpto1(s: string)
    requires s == "have"
    ensures Words(s) == ["have"]
  {
    WordsOfWordThen(s, "");
    assert s + "" == s;
  }

  lemma WordsHaveNotUpto2(s: string)
    requires s == "have not"
    ensures Words(s) == ["have", "not"]
  {
    var p := s[..4];
    WordsNext(s, p, 1, "not");
    WordsHaveNotUpto1(p);
  }

  lemma WordsWillNotUpto1(s: string)
    requires s == "will"
    ensures Words(s) == ["will"]
  {
    WordsOfWordThen(s, "");
    assert s + "" == s;
  }

  lemma WordsWillNotUpto2(s: string)
    requires s == "will not"
    ensures Words(s) == ["will", "not"]
  {
    var p := s[..4];
    WordsNext(s, p, 1, "not");
    WordsWillNotUpto1(p);
  }

  lemma WordsWhatIsUpto1(s: string)
    requires s == "what"
    ensures Words(s) == ["what"]
  {
    WordsOfWordThen(s, "");
    assert s + "" == s;
  }

  lemma WordsWhatIsUpto2(s: string)
    requires s == "what is"
    ensures Words(s) == ["what", "is"]
  {
    var p := s[..4];
    WordsNext(s, p, 1, "is");
    WordsWhatIsUpto1(p);
  }

  lemma WordsWhoWouldHaveUpto1(s: string)
    requires s == "who"
    ensures Words(s) == ["who"]
  {
    WordsOfWordThen(s, "");
    assert s + "" == s;
  }

  lemma WordsWhoWouldHaveUpto2(s: string)
    requires s == "who would"
    ensures Words(s) == ["who", "would"]
  {
    var p := s[..3];
    WordsNext(s, p, 1, "would");
    WordsWhoWouldHaveUpto1(p);
  }

  lemma WordsWhoWouldHaveUpto3(s: string)
    requires s == "who would have"
    ensures Words(s) == ["who", "would", "have"]
  {
    var p := s[..9];
    WordsNext(s, p, 1, "have");
    WordsWhoWouldHaveUpto2(p);
  }

  lemma WordsWillNotHaveUpto1(s: string)
    requires s == "will"
    ensures Words(s) == ["will"]
  {
    WordsOfWordThen(s, "");
    assert s + "" == s;
  }

  lemma WordsWillNotHaveUpto2(s: string)
    requires s == "will not"
    ensures Words(s) == ["will", "not"]
  {
    var p := s[..4];
    WordsNext(s, p, 1, "not");
    WordsWillNotHaveUpto1(p);
  }

  lemma WordsWillNotHaveUpto3(s: string)
    requires s == "will not have"
    ensures Words(s) == ["will", "not", "have"]
  {
    var p := s[..8];
    WordsNext(s, p, 1, "have");
    WordsWillNotHaveUpto2(p);
  }

  lemma WordsYouAllUpto1(s: string)
    requires s == "you"
    ensures Words(s) == ["you"]
  {
    WordsOfWordThen(s, "");
    assert s + "" == s;
  }

  lemma WordsYouAllUpto2(s: string)
    requires s == "you all"
    ensures Words(s) == ["you", "all"]
  {
    var p := s[..3];
    WordsNext(s, p, 1, "all");
    WordsYouAllUpto1(p);
  }

  lemma WordsWouldNotUpto1(s: string)
    requires s == "would"
    ensures Words(s) == ["would"]
  {
    WordsOfWordThen(s, "");
    assert s + "" == s;
  }

  lemma WordsWouldNotUpto2(s: string)
    requires s == "would not"
    ensures Words(s) == ["would", "not"]
  {
    var p := s[..5];
    WordsNext(s, p, 1, "not");
    WordsWouldNotUpto1(p);
  }

  lemma ExpandItAposs()
    ensures Expansion("it's") == ["it", "is"]
  {
    LookupItAposs();
    WordsItIsUpto2("it is");
  }

  lemma ExpandThatAposs()
    ensures Expansion("that's") == ["that", "is"]
  {
    LookupThatAposs();
    WordsThatIsUpto2("that is");
  }

  lemma ExpandAinApost()
    ensures Expansion("ain't") == ["is", "not"]
  {
    LookupAinApost();
    WordsIsNotUpto2("is not");
  }

  lemma ExpandGonna()
    ensures Expansion("gonna") == ["going", "to"]
  {
    LookupGonna();
    WordsGoingToUpto2("going to");
  }

  lemma ExpandGotta()
    ensures Expansion("gotta") == ["got", "to"]
  {
    LookupGotta();
    WordsGotToUpto2("got to");
  }

  lemma ExpandHadnApost()
    ensures Expansion("hadn't") == ["had", "not"]
  {
    LookupHadnApost();
    WordsHadNotUpto2("had not");
  }

  lemma ExpandHavenApost()
    ensures Expansion("haven't") == ["have", "not"]
  {
    LookupHavenApost();
    WordsHaveNotUpto2("have not");
  }

  lemma ExpandWonApost()
    ensures Expansion("won't") == ["will", "not"]
  {
    LookupWonApost();
    WordsWillNotUpto2("will not");
  }

  lemma ExpandWhats()
    ensures Expansion("whats") == ["what", "is"]
  {
    LookupWhats();
    WordsWhatIsUpto2("what is");
  }

  lemma ExpandWhoAposdAposve()
    ensures Expansion("who'd've") == ["who", "would", "have"]
  {
    LookupWhoAposdAposve();
    WordsWhoWouldHaveUpto3("who would have");
  }

  lemma ExpandWonApostAposve()
    ensures Expansion("won't've") == ["will", "not", "have"]
  {
    LookupWonApostAposve();
    WordsWillNotHaveUpto3("will not have");
  }

  lemma ExpandYAposall()
    ensures Expansion("y'all") == ["you", "all"]
  {
    LookupYAposall();
    WordsYouAllUpto2("you all");
  }

  lemma ExpandWouldnApost()
    ensures Expansion("wouldn't") == ["would", "not"]
  {
    LookupWouldnApost();
    WordsWouldNotUpto2("would not");
  }

  lemma ExpandWhatAposs()
    ensures Expansion("what's") == ["what", "is"]
  {
    LookupWhatAposs();
    WordsWhatIsUpto2("what is");
  }

  lemma KeptThis()
    ensures Contraction("this") == None
  {
    WithoutApostrophe("this");
  }

  lemma KeptIs()
    ensures Contraction("is") == None
  {
    WithoutApostrophe("is");
  }

  lemma KeptA()
    ensures Contraction("a") == None
  {
    WithoutApostrophe("a");
  }

  lemma KeptTest()
    ensures Contraction("test") == None
  {
    WithoutApostrophe("test");
  }

  lemma KeptThe()
    ensures Contraction("the") == None
  {
    WithoutApostrophe("the");
  }

  lemma KeptAnd()
    ensures Contraction("and") == None
  {
    WithoutApostrophe("and");
  }

  lemma KeptAnother()
    ensures Contraction("another") == None
  {
    WithoutApostrophe("another");
  }

  lemma KeptAn()
    ensures Contraction("an") == None
  {
    WithoutApostrophe("an");
  }

  lemma KeptExtra()
    ensures Contraction("extra") == None
  {
    WithoutApostrophe("extra");
  }

  lemma KeptRemind()
    ensures Contraction("remind") == None
  {
    WithoutApostrophe("remind");
  }

  lemma KeptMe()
    ensures Contraction("me") == None
  {
    WithoutApostrophe("me");
  }

  lemma KeptTo()
    ensures Contraction("to") == None
  {
    WithoutApostrophe("to");
  }

  lemma KeptDo()
    ensures Contraction("do") == None
  {
    WithoutApostrophe("do");
  }

  lemma KeptSomething()
    ensures Contraction("something") == None
  {
    WithoutApostrophe("something");
  }

  lemma KeptAt()
    ensures Contraction("at") == None
  {
    WithoutApostrophe("at");
  }

  lemma KeptTwo()
    ensures Contraction("two") == None
  {
    WithoutApostrophe("two");
  }

  lemma KeptWhat()
    ensures Contraction("what") == None
  {
    WithoutApostrophe("what");
  }

  lemma KeptTime()
    ensures Contraction("time") == None
  {
    WithoutApostrophe("time");
  }

  lemma KeptWill()
    ensures Contraction("will") == None
  {
    WithoutApostrophe("will");
  }

  lemma KeptIt()
    ensures Contraction("it") == None
  {
    WithoutApostrophe("it");
  }

  lemma KeptBe()
    ensures Contraction("be") == None
  {
    WithoutApostrophe("be");
  }

  lemma KeptIn()
    ensures Contraction("in") == None
  {
    WithoutApostrophe("in");
  }

  lemma KeptMinutes()
    ensures Contraction("minutes") == None
  {
    WithoutApostrophe("minutes");
  }

  lemma KeptWhole()
    ensures Contraction("whole") == None
  {
    WithoutApostrophe("whole");
  }

  lemma KeptHour()
    ensures Contraction("hour") == None
  {
    WithoutApostrophe("hour");
  }

  lemma KeptHalf()
    ensures Contraction("half") == None
  {
    WithoutApostrophe("half");
  }

  lemma KeptOne()
    ensures Contraction("one") == None
  {
    WithoutApostrophe("one");
  }

  lemma KeptFour()
    ensures Contraction("four") == None
  {
    WithoutApostrophe("four");
  }

  lemma KeptFive()
    ensures Contraction("five") == None
  {
    WithoutApostrophe("five");
  }

  lemma KeptSix()
    ensures Contraction("six") == None
  {
    WithoutApostrophe("six");
  }

  lemma KeptSeven()
    ensures Contraction("seven") == None
  {
    WithoutApostrophe("seven");
  }

  lemma KeptEight()
    ensures Contraction("eight") == None
  {
    WithoutApostrophe("eight");
  }

  lemma KeptNine()
    ensures Contraction("nine") == None
  {
    WithoutApostrophe("nine");
  }

  lemma KeptHundred()
    ensures Contraction("hundred") == None
  {
    WithoutApostrophe("hundred");
  }

  lemma KeptHave()
    ensures Contraction("have") == None
  {
    WithoutApostrophe("have");
  }

  lemma KeptI()
    ensures Contraction("I") == None
  {
    WithoutApostrophe("I");
  }

  lemma KeptThey()
    ensures Contraction("they") == None
  {
    WithoutApostrophe("they");
  }

  lemma KeptBeen()
    ensures Contraction("been") == None
  {
    WithoutApostrophe("been");
  }

  lemma KeptThere()
    ensures Contraction("there") == None
  {
    WithoutApostrophe("there");
  }

  lemma KeptWeather()
    ensures Contraction("weather") == None
  {
    WithoutApostrophe("weather");
  }

  lemma KeptLike()
    ensures Contraction("like") == None
  {
    WithoutApostrophe("like");
  }

  lemma Kept8()
    ensures Contraction("8") == None
  {
    WithoutApostrophe("8");
  }

  lemma KeptPlus()
    ensures Contraction("+") == None
  {
    WithoutApostrophe("+");
  }

  lemma Kept4()
    ensures Contraction("4") == None
  {
    WithoutApostrophe("4");
  }
}

/** The words of the `normalize` assertions' texts, each text read one word
    at a time and every word expanded. */
module ExpansionExamples {
  import opened Text
  import opened ContractionTable
  import opened Normalize
  import opened ContractionExamples

  lemma NormalizeThisIsATestWordsUpto1(s: string)
    requires s == "this"
    ensures Words(s) == ["this"]
  {
    WordsOfWordThen(s, "");
    assert s + "" == s;
  }

  lemma NormalizeThisIsATestWordsUpto2(s: string)
    requires s == "this is"
    ensures Words(s) == ["this", "is"]
  {
    var p := s[..4];
    WordsNext(s, p, 1, "is");
    NormalizeThisIsATestWordsUpto1(p);
  }

  lemma NormalizeThisIsATestWordsUpto3(s: string)
    requires s == "this is a"
    ensures Words(s) == ["this", "is", "a"]
  {
    var p := s[..7];
    WordsNext(s, p, 1, "a");
    NormalizeThisIsATestWordsUpto2(p);
  }

  lemma NormalizeThisIsATestWordsUpto4(s: string)
    requires s == "this is a test"
    ensures Words(s) == ["this", "is", "a", "test"]
  {
    var p := s[..9];
    WordsNext(s, p, 1, "test");
    NormalizeThisIsATestWordsUpto3(p);
  }

  lemma NormalizeThisIsATestExpandedUpto1(ws: seq<string>)
    requires ws == ["this"]
    ensures ExpandAll(ws) == ["this"]
  {
    KeptThis();
    ExpandAllSnoc([], "this");
    assert [] + ["this"] == ws;
  }

  lemma NormalizeThisIsATestExpandedUpto2(ws: seq<string>)
    requires ws == ["this", "is"]
    ensures ExpandAll(ws) == ["this", "is"]
  {
    var p := ws[..1];
    KeptIs();
    ExpandAllSnoc(p, "is");
    assert p + ["is"] == ws;
    NormalizeThisIsATestExpandedUpto1(p);
  }

  lemma NormalizeThisIsATestExpandedUpto3(ws: seq<string>)
    requires ws == ["this", "is", "a"]
    ensures ExpandAll(ws) == ["this", "is", "a"]
  {
    var p := ws[..2];
    KeptA();
    ExpandAllSnoc(p, "a");
    assert p + ["a"] == ws;
    NormalizeThisIsATestExpandedUpto2(p);
  }

  lemma NormalizeThisIsATestExpandedUpto4(ws: seq<string>)
    requires ws == ["this", "is", "a", "test"]
    ensures ExpandAll(ws) == ["this", "is", "a", "test"]
  {
    var p := ws[..3];
    KeptTest();
    ExpandAllSnoc(p, "test");
    assert p + ["test"] == ws;
    NormalizeThisIsATestExpandedUpto3(p);
  }

  lemma NormalizeThisIsATestExpandedWords(s: string)
    requires s == "this is a test"
    ensures ExpandAll(Words(s)) == ["this", "is", "a", "test"]
  {
    NormalizeThisIsATestWordsUpto4(s);
    NormalizeThisIsATestExpandedUpto4(Words(s));
  }

  lemma NormalizeThisIsTheTestWordsUpto1(s: string)
    requires s == "this"
    ensures Words(s) == ["this"]
  {
    WordsOfWordThen(s, "");
    assert s + "" == s;
  }

  lemma NormalizeThisIsTheTestWordsUpto2(s: string)
    requires s == "this is"
    ensures Words(s) == ["this", "is"]
  {
    var p := s[..4];
    WordsNext(s, p, 1, "is");
    NormalizeThisIsTheTestWordsUpto1(p);
  }

  lemma NormalizeThisIsTheTestWordsUpto3(s: string)
    requires s == "this is the"
    ensures Words(s) == ["this", "is", "the"]
  {
    var p := s[..7];
    WordsNext(s, p, 1, "the");
    NormalizeThisIsTheTestWordsUpto2(p);
  }

  lemma NormalizeThisIsTheTestWordsUpto4(s: string)
    requires s == "this is the test"
    ensures Words(s) == ["this", "is", "the", "test"]
  {
    var p := s[..11];
    WordsNext(s, p, 1, "test");
    NormalizeThisIsTheTestWordsUpto3(p);
  }

  lemma NormalizeThisIsTheTestExpandedUpto1(ws: seq<string>)
    requires ws == ["this"]
    ensures ExpandAll(ws) == ["this"]
  {
    KeptThis();
    ExpandAllSnoc([], "this");
    assert [] + ["this"] == ws;
  }

  lemma NormalizeThisIsTheTestExpandedUpto2(ws: seq<string>)
    requires ws == ["this", "is"]
    ensures ExpandAll(ws) == ["this", "is"]
  {
    var p := ws[..1];
    KeptIs();
    ExpandAllSnoc(p, "is");
    assert p + ["is"] == ws;
    NormalizeThisIsTheTestExpandedUpto1(p);
  }

  lemma NormalizeThisIsTheTestExpandedUpto3(ws: seq<string>)
    requires ws == ["this", "is", "the"]
    ensures ExpandAll(ws) == ["this", "is", "the"]
  {
    var p := ws[..2];
    KeptThe();
    ExpandAllSnoc(p, "the");
    assert p + ["the"] == ws;
    NormalizeThisIsTheTestExpandedUpto2(p);
  }

  lemma NormalizeThisIsTheTestExpandedUpto4(ws: seq<string>)
    requires ws == ["this", "is", "the", "test"]
    ensures ExpandAll(ws) == ["this", "is", "the", "test"]
  {
    var p := ws[..3];
    KeptTest();
    ExpandAllSnoc(p, "test");
    assert p + ["test"] == ws;
    NormalizeThisIsTheTestExpandedUpto3(p);
  }

  lemma NormalizeThisIsTheTestExpandedWords(s: string)
    requires s == "this is the test"
    ensures ExpandAll(Words(s)) == ["this", "is", "the", "test"]
  {
    NormalizeThisIsTheTestWordsUpto4(s);
    NormalizeThisIsTheTestExpandedUpto4(Words(s));
  }

  lemma NormalizeAndAnotherTestWordsUpto1(s: string)
    requires s == "and"
    ensures Words(s) == ["and"]
  {
    WordsOfWordThen(s, "");
    assert s + "" == s;
  }

  lemma NormalizeAndAnotherTestWordsUpto2(s: string)
    requires s == "and another"
    ensures Words(s) == ["and", "another"]
  {
    var p := s[..3];
    WordsNext(s, p, 1, "another");
    NormalizeAndAnotherTestWordsUpto1(p);
  }

  lemma NormalizeAndAnotherTestWordsUpto3(s: string)
    requires s == "and another test"
    ensures Words(s) == ["and", "another", "test"]
  {
    var p := s[..11];
    WordsNext(s, p, 1, "test");
    NormalizeAndAnotherTestWordsUpto2(p);
  }

  lemma NormalizeAndAnotherTestExpandedUpto1(ws: seq<string>)
    requires ws == ["and"]
    ensures ExpandAll(ws) == ["and"]
  {
    KeptAnd();
    ExpandAllSnoc([], "and");
    assert [] + ["and"] == ws;
  }

  lemma NormalizeAndAnotherTestExpandedUpto2(ws: seq<string>)
    requires ws == ["and", "another"]
    ensures ExpandAll(ws) == ["and", "another"]
  {
    var p := ws[..1];
    KeptAnother();
    ExpandAllSnoc(p, "another");
    assert p + ["another"] == ws;
    NormalizeAndAnotherTestExpandedUpto1(p);
  }

  lemma NormalizeAndAnotherTestExpandedUpto3(ws: seq<string>)
    requires ws == ["and", "another", "test"]
    ensures ExpandAll(ws) == ["and", "another", "test"]
  {
    var p := ws[..2];
    KeptTest();
    ExpandAllSnoc(p, "test");
    assert p + ["test"] == ws;
    NormalizeAndAnotherTestExpandedUpto2(p);
  }

  lemma NormalizeAndAnotherTestExpandedWords(s: string)
    requires s == "and another test"
    ensures ExpandAll(Words(s)) == ["and", "another", "test"]
  {
    NormalizeAndAnotherTestWordsUpto3(s);
    NormalizeAndAnotherTestExpandedUpto3(Words(s));
  }

  lemma NormalizeThisIsAnExtraWordsUpto1(s: string)
    requires s == "this"
    ensures Words(s) == ["this"]
  {
    WordsOfWordThen(s, "");
    assert s + "" == s;
  }

  lemma NormalizeThisIsAnExtraWordsUpto2(s: string)
    requires s == "this is"
    ensures Words(s) == ["this", "is"]
  {
    var p := s[..4];
    WordsNext(s, p, 1, "is");
    NormalizeThisIsAnExtraWordsUpto1(p);
  }

  lemma NormalizeThisIsAnExtraWordsUpto3(s: string)
    requires s == "this is an"
    ensures Words(s) == ["this", "is", "an"]
  {
    var p := s[..7];
    WordsNext(s, p, 1, "an");
    NormalizeThisIsAnExtraWordsUpto2(p);
  }

  lemma NormalizeThisIsAnExtraWordsUpto4(s: string)
    requires s == "this is an extra"
    ensures Words(s) == ["this", "is", "an", "extra"]
  {
    var p := s[..10];
    WordsNext(s, p, 1, "extra");
    NormalizeThisIsAnExtraWordsUpto3(p);
  }

  lemma NormalizeThisIsAnExtraWordsUpto5(s: string)
    requires s == "this is an extra test"
    ensures Words(s) == ["this", "is", "an", "extra", "test"]
  {
    var p := s[..16];
    WordsNext(s, p, 1, "test");
    NormalizeThisIsAnExtraWordsUpto4(p);
  }

  lemma NormalizeThisIsAnExtraExpandedUpto1(ws: seq<string>)
    requires ws == ["this"]
    ensures ExpandAll(ws) == ["this"]
  {
    KeptThis();
    ExpandAllSnoc([], "this");
    assert [] + ["this"] == ws;
  }

  lemma NormalizeThisIsAnExtraExpandedUpto2(ws: seq<string>)
    requires ws == ["this", "is"]
    ensures ExpandAll(ws) == ["this", "is"]
  {
    var p := ws[..1];
    KeptIs();
    ExpandAllSnoc(p, "is");
    assert p + ["is"] == ws;
    NormalizeThisIsAnExtraExpandedUpto1(p);
  }

  lemma NormalizeThisIsAnExtraExpandedUpto3(ws: seq<string>)
    requires ws == ["this", "is", "an"]
    ensures ExpandAll(ws) == ["this", "is", "an"]
  {
    var p := ws[..2];
    KeptAn();
    ExpandAllSnoc(p, "an");
    assert p + ["an"] == ws;
    NormalizeThisIsAnExtraExpandedUpto2(p);
  }

  lemma NormalizeThisIsAnExtraExpandedUpto4(ws: seq<string>)
    requires ws == ["this", "is", "an", "extra"]
    ensures ExpandAll(ws) == ["this", "is", "an", "extra"]
  {
    var p := ws[..3];
    KeptExtra();
    ExpandAllSnoc(p, "extra");
    assert p + ["extra"] == ws;
    NormalizeThisIsAnExtraExpandedUpto3(p);
  }

  lemma NormalizeThisIsAnExtraExpandedUpto5(ws: seq<string>)
    requires ws == ["this", "is", "an", "extra", "test"]
    ensures ExpandAll(ws) == ["this", "is", "an", "extra", "test"]
  {
    var p := ws[..4];
    KeptTest();
    ExpandAllSnoc(p, "test");
    assert p + ["test"] == ws;
    NormalizeThisIsAnExtraExpandedUpto4(p);
  }

  lemma NormalizeThisIsAnExtraExpandedWords(s: string)
    requires s == "this is an extra test"
    ensures ExpandAll(Words(s)) == ["this", "is", "an", "extra", "test"]
  {
    NormalizeThisIsAnExtraWordsUpto5(s);
    NormalizeThisIsAnExtraExpandedUpto5(Words(s));
  }

  lemma NormalizeRemindMeToDoWordsUpto1(s: string)
    requires s == "remind"
    ensures Words(s) == ["remind"]
  {
    WordsOfWordThen(s, "");
    assert s + "" == s;
  }

  lemma NormalizeRemindMeToDoWordsUpto2(s: string)
    requires s == "remind me"
    ensures Words(s) == ["remind", "me"]
  {
    var p := s[..6];
    WordsNext(s, p, 1, "me");
    NormalizeRemindMeToDoWordsUpto1(p);
  }

  lemma NormalizeRemindMeToDoWordsUpto3(s: string)
    requires s == "remind me to"
    ensures Words(s) == ["remind", "me", "to"]
  {
    var p := s[..9];
    WordsNext(s, p, 1, "to");
    NormalizeRemindMeToDoWordsUpto2(p);
  }

  lemma NormalizeRemindMeToDoWordsUpto4(s: string)
    requires s == "remind me to do"
    ensures Words(s) == ["remind", "me", "to", "do"]
  {
    var p := s[..12];
    WordsNext(s, p, 1, "do");
    NormalizeRemindMeToDoWordsUpto3(p);
  }

  lemma NormalizeRemindMeToDoWordsUpto5(s: string)
    requires s == "remind me to do something"
    ensures Words(s) == ["remind", "me", "to", "do", "something"]
  {
    var p := s[..15];
    WordsNext(s, p, 1, "something");
    NormalizeRemindMeToDoWordsUpto4(p);
  }

  lemma NormalizeRemindMeToDoWordsUpto6(s: string)
    requires s == "remind me to do something at"
    ensures Words(s) == ["remind", "me", "to", "do", "something", "at"]
  {
    var p := s[..25];
    WordsNext(s, p, 1, "at");
    NormalizeRemindMeToDoWordsUpto5(p);
  }

  lemma NormalizeRemindMeToDoWordsUpto7(s: string)
    requires s == "remind me to do something at two"
    ensures Words(s) == ["remind", "me", "to", "do", "something", "at", "two"]
  {
    var p := s[..28];
    WordsNext(s, p, 1, "two");
    NormalizeRemindMeToDoWordsUpto6(p);
  }

  lemma NormalizeRemindMeToDoWordsUpto8(s: string)
    requires s == "remind me to do something at two to"
    ensures Words(s) == ["remind", "me", "to", "do", "something", "at", "two", "to"]
  {
    var p := s[..32];
    WordsNext(s, p, 1, "to");
    NormalizeRemindMeToDoWordsUpto7(p);
  }

  lemma NormalizeRemindMeToDoWordsUpto9(s: string)
    requires s == "remind me to do something at two to two"
    ensures Words(s) == ["remind", "me", "to", "do", "something", "at", "two", "to", "two"]
  {
    var p := s[..35];
    WordsNext(s, p, 1, "two");
    NormalizeRemindMeToDoWordsUpto8(p);
  }

  lemma NormalizeRemindMeToDoExpandedUpto1(ws: seq<string>)
    requires ws == ["remind"]
    ensures ExpandAll(ws) == ["remind"]
  {
    KeptRemind();
    ExpandAllSnoc([], "remind");
    assert [] + ["remind"] == ws;
  }

  lemma NormalizeRemindMeToDoExpandedUpto2(ws: seq<string>)
    requires ws == ["remind", "me"]
    ensures ExpandAll(ws) == ["remind", "me"]
  {
    var p := ws[..1];
    KeptMe();
    ExpandAllSnoc(p, "me");
    assert p + ["me"] == ws;
    NormalizeRemindMeToDoExpandedUpto1(p);
  }

  lemma NormalizeRemindMeToDoExpandedUpto3(ws: seq<string>)
    requires ws == ["remind", "me", "to"]
    ensures ExpandAll(ws) == ["remind", "me", "to"]
  {
    var p := ws[..2];
    KeptTo();
    ExpandAllSnoc(p, "to");
    assert p + ["to"] == ws;
    NormalizeRemindMeToDoExpandedUpto2(p);
  }

  lemma NormalizeRemindMeToDoExpandedUpto4(ws: seq<string>)
    requires ws == ["remind", "me", "to", "do"]
    ensures ExpandAll(ws) == ["remind", "me", "to", "do"]
  {
    var p := ws[..3];
    KeptDo();
    ExpandAllSnoc(p, "do");
    assert p + ["do"] == ws;
    NormalizeRemindMeToDoExpandedUpto3(p);
  }

  lemma NormalizeRemindMeToDoExpandedUpto5(ws: seq<string>)
    requires ws == ["remind", "me", "to", "do", "something"]
    ensures ExpandAll(ws) == ["remind", "me", "to", "do", "something"]
  {
    var p := ws[..4];
    KeptSomething();
    ExpandAllSnoc(p, "something");
    assert p + ["something"] == ws;
    NormalizeRemindMeToDoExpandedUpto4(p);
  }

  lemma NormalizeRemindMeToDoExpandedUpto6(ws: seq<string>)
    requires ws == ["remind", "me", "to", "do", "something", "at"]
    ensures ExpandAll(ws) == ["remind", "me", "to", "do", "something", "at"]
  {
    var p := ws[..5];
    KeptAt();
    ExpandAllSnoc(p, "at");
    assert p + ["at"] == ws;
    NormalizeRemindMeToDoExpandedUpto5(p);
  }

  lemma NormalizeRemindMeToDoExpandedUpto7(ws: seq<string>)
    requires ws == ["remind", "me", "to", "do", "something", "at", "two"]
    ensures ExpandAll(ws) == ["remind", "me", "to", "do", "something", "at", "two"]
  {
    var p := ws[..6];
    KeptTwo();
    ExpandAllSnoc(p, "two");
    assert p + ["two"] == ws;
    NormalizeRemindMeToDoExpandedUpto6(p);
  }

  lemma NormalizeRemindMeToDoExpandedUpto8(ws: seq<string>)
    requires ws == ["remind", "me", "to", "do", "something", "at", "two", "to"]
    ensures ExpandAll(ws) == ["remind", "me", "to", "do", "something", "at", "two", "to"]
  {
    var p := ws[..7];
    KeptTo();
    ExpandAllSnoc(p, "to");
    assert p + ["to"] == ws;
    NormalizeRemindMeToDoExpandedUpto7(p);
  }

  lemma NormalizeRemindMeToDoExpandedUpto9(ws: seq<string>)
    requires ws == ["remind", "me", "to", "do", "something", "at", "two", "to", "two"]
    ensures ExpandAll(ws) == ["remind", "me", "to", "do", "something", "at", "two", "to", "two"]
  {
    var p := ws[..8];
    KeptTwo();
    ExpandAllSnoc(p, "two");
    assert p + ["two"] == ws;
    NormalizeRemindMeToDoExpandedUpto8(p);
  }

  lemma NormalizeRemindMeToDoExpandedWords(s: string)
    requires s == "remind me to do something at two to two"
    ensures ExpandAll(Words(s)) == ["remind", "me", "to", "do", "something", "at", "two", "to", "two"]
  {
    NormalizeRemindMeToDoWordsUpto9(s);
    NormalizeRemindMeToDoExpandedUpto9(Words(s));
  }

  lemma NormalizeWhatTimeWillItWordsUpto1(s: string)
    requires s == "what"
    ensures Words(s) == ["what"]
  {
    WordsOfWordThen(s, "");
    assert s + "" == s;
  }

  lemma NormalizeWhatTimeWillItWordsUpto2(s: string)
    requires s == "what time"
    ensures Words(s) == ["what", "time"]
  {
    var p := s[..4];
    WordsNext(s, p, 1, "time");
    NormalizeWhatTimeWillItWordsUpto1(p);
  }

  lemma NormalizeWhatTimeWillItWordsUpto3(s: string)
    requires s == "what time will"
    ensures Words(s) == ["what", "time", "will"]
  {
    var p := s[..9];
    WordsNext(s, p, 1, "will");
    NormalizeWhatTimeWillItWordsUpto2(p);
  }

  lemma NormalizeWhatTimeWillItWordsUpto4(s: string)
    requires s == "what time will it"
    ensures Words(s) == ["what", "time", "will", "it"]
  {
    var p := s[..14];
    WordsNext(s, p, 1, "it");
    NormalizeWhatTimeWillItWordsUpto3(p);
  }

  lemma NormalizeWhatTimeWillItWordsUpto5(s: string)
    requires s == "what time will it be"
    ensures Words(s) == ["what", "time", "will", "it", "be"]
  {
    var p := s[..17];
    WordsNext(s, p, 1, "be");
    NormalizeWhatTimeWillItWordsUpto4(p);
  }

  lemma NormalizeWhatTimeWillItWordsUpto6(s: string)
    requires s == "what time will it be in"
    ensures Words(s) == ["what", "time", "will", "it", "be", "in"]
  {
    var p := s[..20];
    WordsNext(s, p, 1, "in");
    NormalizeWhatTimeWillItWordsUpto5(p);
  }

  lemma NormalizeWhatTimeWillItWordsUpto7(s: string)
    requires s == "what time will it be in two"
    ensures Words(s) == ["what", "time", "will", "it", "be", "in", "two"]
  {
    var p := s[..23];
    WordsNext(s, p, 1, "two");
    NormalizeWhatTimeWillItWordsUpto6(p);
  }

  lemma NormalizeWhatTimeWillItWordsUpto8(s: string)
    requires s == "what time will it be in two minutes"
    ensures Words(s) == ["what", "time", "will", "it", "be", "in", "two", "minutes"]
  {
    var p := s[..27];
    WordsNext(s, p, 1, "minutes");
    NormalizeWhatTimeWillItWordsUpto7(p);
  }

  lemma NormalizeWhatTimeWillItExpandedUpto1(ws: seq<string>)
    requires ws == ["what"]
    ensures ExpandAll(ws) == ["what"]
  {
    KeptWhat();
    ExpandAllSnoc([], "what");
    assert [] + ["what"] == ws;
  }

  lemma NormalizeWhatTimeWillItExpandedUpto2(ws: seq<string>)
    requires ws == ["what", "time"]
    ensures ExpandAll(ws) == ["what", "time"]
  {
    var p := ws[..1];
    KeptTime();
    ExpandAllSnoc(p, "time");
    assert p + ["time"] == ws;
    NormalizeWhatTimeWillItExpandedUpto1(p);
  }

  lemma NormalizeWhatTimeWillItExpandedUpto3(ws: seq<string>)
    requires ws == ["what", "time", "will"]
    ensures ExpandAll(ws) == ["what", "time", "will"]
  {
    var p := ws[..2];
    KeptWill();
    ExpandAllSnoc(p, "will");
    assert p + ["will"] == ws;
    NormalizeWhatTimeWillItExpandedUpto2(p);
  }

  lemma NormalizeWhatTimeWillItExpandedUpto4(ws: seq<string>)
    requires ws == ["what", "time", "will", "it"]
    ensures ExpandAll(ws) == ["what", "time", "will", "it"]
  {
    var p := ws[..3];
    KeptIt();
    ExpandAllSnoc(p, "it");
    assert p + ["it"] == ws;
    NormalizeWhatTimeWillItExpandedUpto3(p);
  }

  lemma NormalizeWhatTimeWillItExpandedUpto5(ws: seq<string>)
    requires ws == ["what", "time", "will", "it", "be"]
    ensures ExpandAll(ws) == ["what", "time", "will", "it", "be"]
  {
    var p := ws[..4];
    KeptBe();
    ExpandAllSnoc(p, "be");
    assert p + ["be"] == ws;
    NormalizeWhatTimeWillItExpandedUpto4(p);
  }

  lemma NormalizeWhatTimeWillItExpandedUpto6(ws: seq<string>)
    requires ws == ["what", "time", "will", "it", "be", "in"]
    ensures ExpandAll(ws) == ["what", "time", "will", "it", "be", "in"]
  {
    var p := ws[..5];
    KeptIn();
    ExpandAllSnoc(p, "in");
    assert p + ["in"] == ws;
    NormalizeWhatTimeWillItExpandedUpto5(p);
  }

  lemma NormalizeWhatTimeWillItExpandedUpto7(ws: seq<string>)
    requires ws == ["what", "time", "will", "it", "be", "in", "two"]
    ensures ExpandAll(ws) == ["what", "time", "will", "it", "be", "in", "two"]
  {
    var p := ws[..6];
    KeptTwo();
    ExpandAllSnoc(p, "two");
    assert p + ["two"] == ws;
    NormalizeWhatTimeWillItExpandedUpto6(p);
  }

  lemma NormalizeWhatTimeWillItExpandedUpto8(ws: seq<string>)
    requires ws == ["what", "time", "will", "it", "be", "in", "two", "minutes"]
    ensures ExpandAll(ws) == ["what", "time", "will", "it", "be", "in", "two", "minutes"]
  {
    var p := ws[..7];
    KeptMinutes();
    ExpandAllSnoc(p, "minutes");
    assert p + ["minutes"] == ws;
    NormalizeWhatTimeWillItExpandedUpto7(p);
  }

  lemma NormalizeWhatTimeWillItExpandedWords(s: string)
    requires s == "what time will it be in two minutes"
    ensures ExpandAll(Words(s)) == ["what", "time", "will", "it", "be", "in", "two", "minutes"]
  {
    NormalizeWhatTimeWillItWordsUpto8(s);
    NormalizeWhatTimeWillItExpandedUpto8(Words(s));
  }

  lemma NormalizeWholeHourWordsUpto1(s: string)
    requires s == "whole"
    ensures Words(s) == ["whole"]
  {
    WordsOfWordThen(s, "");
    assert s + "" == s;
  }

  lemma NormalizeWholeHourWordsUpto2(s: string)
    requires s == "whole hour"
    ensures Words(s) == ["whole", "hour"]
  {
    var p := s[..5];
    WordsNext(s, p, 1, "hour");
    NormalizeWholeHourWordsUpto1(p);
  }

  lemma NormalizeWholeHourExpandedUpto1(ws: seq<string>)
    requires ws == ["whole"]
    ensures ExpandAll(ws) == ["whole"]
  {
    KeptWhole();
    ExpandAllSnoc([], "whole");
    assert [] + ["whole"] == ws;
  }

  lemma NormalizeWholeHourExpandedUpto2(ws: seq<string>)
    requires ws == ["whole", "hour"]
    ensures ExpandAll(ws) == ["whole", "hour"]
  {
    var p := ws[..1];
    KeptHour();
    ExpandAllSnoc(p, "hour");
    assert p + ["hour"] == ws;
    NormalizeWholeHourExpandedUpto1(p);
  }

  lemma NormalizeWholeHourExpandedWords(s: string)
    requires s == "whole hour"
    ensures ExpandAll(Words(s)) == ["whole", "hour"]
  {
    NormalizeWholeHourWordsUpto2(s);
    NormalizeWholeHourExpandedUpto2(Words(s));
  }

  lemma NormalizeHalfHourWordsUpto1(s: string)
    requires s == "half"
    ensures Words(s) == ["half"]
  {
    WordsOfWordThen(s, "");
    assert s + "" == s;
  }

  lemma NormalizeHalfHourWordsUpto2(s: string)
    requires s == "half hour"
    ensures Words(s) == ["half", "hour"]
  {
    var p := s[..4];
    WordsNext(s, p, 1, "hour");
    NormalizeHalfHourWordsUpto1(p);
  }

  lemma NormalizeHalfHourExpandedUpto1(ws: seq<string>)
    requires ws == ["half"]
    ensures ExpandAll(ws) == ["half"]
  {
    KeptHalf();
    ExpandAllSnoc([], "half");
    assert [] + ["half"] == ws;
  }

  lemma NormalizeHalfHourExpandedUpto2(ws: seq<string>)
    requires ws == ["half", "hour"]
    ensures ExpandAll(ws) == ["half", "hour"]
  {
    var p := ws[..1];
    KeptHour();
    ExpandAllSnoc(p, "hour");
    assert p + ["hour"] == ws;
    NormalizeHalfHourExpandedUpto1(p);
  }

  lemma NormalizeHalfHourExpandedWords(s: string)
    requires s == "half hour"
    ensures ExpandAll(Words(s)) == ["half", "hour"]
  {
    NormalizeHalfHourWordsUpto2(s);
    NormalizeHalfHourExpandedUpto2(Words(s));
  }

  lemma NormalizeThisIsATestAgainWordsUpto1(s: string)
    requires s == "this"
    ensures Words(s) == ["this"]
  {
    WordsOfWordThen(s, "");
    assert s + "" == s;
  }

  lemma NormalizeThisIsATestAgainWordsUpto2(s: string)
    requires s == "this   is"
    ensures Words(s) == ["this", "is"]
  {
    var p := s[..4];
    WordsNext(s, p, 3, "is");
    NormalizeThisIsATestAgainWordsUpto1(p);
  }

  lemma NormalizeThisIsATestAgainWordsUpto3(s: string)
    requires s == "this   is  a"
    ensures Words(s) == ["this", "is", "a"]
  {
    var p := s[..9];
    WordsNext(s, p, 2, "a");
    NormalizeThisIsATestAgainWordsUpto2(p);
  }

  lemma NormalizeThisIsATestAgainWordsUpto4(s: string)
    requires s == "this   is  a    test"
    ensures Words(s) == ["this", "is", "a", "test"]
  {
    var p := s[..12];
    WordsNext(s, p, 4, "test");
    NormalizeThisIsATestAgainWordsUpto3(p);
  }

  lemma NormalizeThisIsATestAgainExpandedUpto1(ws: seq<string>)
    requires ws == ["this"]
    ensures ExpandAll(ws) == ["this"]
  {
    KeptThis();
    ExpandAllSnoc([], "this");
    assert [] + ["this"] == ws;
  }

  lemma NormalizeThisIsATestAgainExpandedUpto2(ws: seq<string>)
    requires ws == ["this", "is"]
    ensures ExpandAll(ws) == ["this", "is"]
  {
    var p := ws[..1];
    KeptIs();
    ExpandAllSnoc(p, "is");
    assert p + ["is"] == ws;
    NormalizeThisIsATestAgainExpandedUpto1(p);
  }

  lemma NormalizeThisIsATestAgainExpandedUpto3(ws: seq<string>)
    requires ws == ["this", "is", "a"]
    ensures ExpandAll(ws) == ["this", "is", "a"]
  {
    var p := ws[..2];
    KeptA();
    ExpandAllSnoc(p, "a");
    assert p + ["a"] == ws;
    NormalizeThisIsATestAgainExpandedUpto2(p);
  }

  lemma NormalizeThisIsATestAgainExpandedUpto4(ws: seq<string>)
    requires ws == ["this", "is", "a", "test"]
    ensures ExpandAll(ws) == ["this", "is", "a", "test"]
  {
    var p := ws[..3];
    KeptTest();
    ExpandAllSnoc(p, "test");
    assert p + ["test"] == ws;
    NormalizeThisIsATestAgainExpandedUpto3(p);
  }

  lemma NormalizeThisIsATestAgainExpandedWords(s: string)
    requires s == "  this   is  a    test"
    ensures ExpandAll(Words(s)) == ["this", "is", "a", "test"]
  {
    var c := s[2..22];
    assert s == Spaces(2) + c + Spaces(0);
    WordsTrimmed(s, 2, c, 0);
    NormalizeThisIsATestAgainWordsUpto4(c);
    NormalizeThisIsATestAgainExpandedUpto4(Words(s));
  }

  lemma NormalizeThisIsATestAgainAgainWordsUpto1(s: string)
    requires s == "this"
    ensures Words(s) == ["this"]
  {
    WordsOfWordThen(s, "");
    assert s + "" == s;
  }

  lemma NormalizeThisIsATestAgainAgainWordsUpto2(s: string)
    requires s == "this   is"
    ensures Words(s) == ["this", "is"]
  {
    var p := s[..4];
    WordsNext(s, p, 3, "is");
    NormalizeThisIsATestAgainAgainWordsUpto1(p);
  }

  lemma NormalizeThisIsATestAgainAgainWordsUpto3(s: string)
    requires s == "this   is  a"
    ensures Words(s) == ["this", "is", "a"]
  {
    var p := s[..9];
    WordsNext(s, p, 2, "a");
    NormalizeThisIsATestAgainAgainWordsUpto2(p);
  }

  lemma NormalizeThisIsATestAgainAgainWordsUpto4(s: string)
    requires s == "this   is  a    test"
    ensures Words(s) == ["this", "is", "a", "test"]
  {
    var p := s[..12];
    WordsNext(s, p, 4, "test");
    NormalizeThisIsATestAgainAgainWordsUpto3(p);
  }

  lemma NormalizeThisIsATestAgainAgainExpandedUpto1(ws: seq<string>)
    requires ws == ["this"]
    ensures ExpandAll(ws) == ["this"]
  {
    KeptThis();
    ExpandAllSnoc([], "this");
    assert [] + ["this"] == ws;
  }

  lemma NormalizeThisIsATestAgainAgainExpandedUpto2(ws: seq<string>)
    requires ws == ["this", "is"]
    ensures ExpandAll(ws) == ["this", "is"]
  {
    var p := ws[..1];
    KeptIs();
    ExpandAllSnoc(p, "is");
    assert p + ["is"] == ws;
    NormalizeThisIsATestAgainAgainExpandedUpto1(p);
  }

  lemma NormalizeThisIsATestAgainAgainExpandedUpto3(ws: seq<string>)
    requires ws == ["this", "is", "a"]
    ensures ExpandAll(ws) == ["this", "is", "a"]
  {
    var p := ws[..2];
    KeptA();
    ExpandAllSnoc(p, "a");
    assert p + ["a"] == ws;
    NormalizeThisIsATestAgainAgainExpandedUpto2(p);
  }

  lemma NormalizeThisIsATestAgainAgainExpandedUpto4(ws: seq<string>)
    requires ws == ["this", "is", "a", "test"]
    ensures ExpandAll(ws) == ["this", "is", "a", "test"]
  {
    var p := ws[..3];
    KeptTest();
    ExpandAllSnoc(p, "test");
    assert p + ["test"] == ws;
    NormalizeThisIsATestAgainAgainExpandedUpto3(p);
  }

  lemma NormalizeThisIsATestAgainAgainExpandedWords(s: string)
    requires s == "  this   is  a    test  "
    ensures ExpandAll(Words(s)) == ["this", "is", "a", "test"]
  {
    var c := s[2..22];
    assert s == Spaces(2) + c + Spaces(2);
    WordsTrimmed(s, 2, c, 2);
    NormalizeThisIsATestAgainAgainWordsUpto4(c);
    NormalizeThisIsATestAgainAgainExpandedUpto4(Words(s));
  }

  lemma NormalizeThisIsOneTestWordsUpto1(s: string)
    requires s == "this"
    ensures Words(s) == ["this"]
  {
    WordsOfWordThen(s, "");
    assert s + "" == s;
  }

  lemma NormalizeThisIsOneTestWordsUpto2(s: string)
    requires s == "this   is"
    ensures Words(s) == ["this", "is"]
  {
    var p := s[..4];
    WordsNext(s, p, 3, "is");
    NormalizeThisIsOneTestWordsUpto1(p);
  }

  lemma NormalizeThisIsOneTestWordsUpto3(s: string)
    requires s == "this   is  one"
    ensures Words(s) == ["this", "is", "one"]
  {
    var p := s[..9];
    WordsNext(s, p, 2, "one");
    NormalizeThisIsOneTestWordsUpto2(p);
  }

  lemma NormalizeThisIsOneTestWordsUpto4(s: string)
    requires s == "this   is  one    test"
    ensures Words(s) == ["this", "is", "one", "test"]
  {
    var p := s[..14];
    WordsNext(s, p, 4, "test");
    NormalizeThisIsOneTestWordsUpto3(p);
  }

  lemma NormalizeThisIsOneTestExpandedUpto1(ws: seq<string>)
    requires ws == ["this"]
    ensures ExpandAll(ws) == ["this"]
  {
    KeptThis();
    ExpandAllSnoc([], "this");
    assert [] + ["this"] == ws;
  }

  lemma NormalizeThisIsOneTestExpandedUpto2(ws: seq<string>)
    requires ws == ["this", "is"]
    ensures ExpandAll(ws) == ["this", "is"]
  {
    var p := ws[..1];
    KeptIs();
    ExpandAllSnoc(p, "is");
    assert p + ["is"] == ws;
    NormalizeThisIsOneTestExpandedUpto1(p);
  }

  lemma NormalizeThisIsOneTestExpandedUpto3(ws: seq<string>)
    requires ws == ["this", "is", "one"]
    ensures ExpandAll(ws) == ["this", "is", "one"]
  {
    var p := ws[..2];
    KeptOne();
    ExpandAllSnoc(p, "one");
    assert p + ["one"] == ws;
    NormalizeThisIsOneTestExpandedUpto2(p);
  }

  lemma NormalizeThisIsOneTestExpandedUpto4(ws: seq<string>)
    requires ws == ["this", "is", "one", "test"]
    ensures ExpandAll(ws) == ["this", "is", "one", "test"]
  {
    var p := ws[..3];
    KeptTest();
    ExpandAllSnoc(p, "test");
    assert p + ["test"] == ws;
    NormalizeThisIsOneTestExpandedUpto3(p);
  }

  lemma NormalizeThisIsOneTestExpandedWords(s: string)
    requires s == "  this   is  one    test"
    ensures ExpandAll(Words(s)) == ["this", "is", "one", "test"]
  {
    var c := s[2..24];
    assert s == Spaces(2) + c + Spaces(0);
    WordsTrimmed(s, 2, c, 0);
    NormalizeThisIsOneTestWordsUpto4(c);
    NormalizeThisIsOneTestExpandedUpto4(Words(s));
  }

  lemma NormalizeItApossAFourFiveWordsUpto1(s: string)
    requires s == "it's"
    ensures Words(s) == ["it's"]
  {
    WordsOfWordThen(s, "");
    assert s + "" == s;
  }

  lemma NormalizeItApossAFourFiveWordsUpto2(s: string)
    requires s == "it's  a"
    ensures Words(s) == ["it's", "a"]
  {
    var p := s[..4];
    WordsNext(s, p, 2, "a");
    NormalizeItApossAFourFiveWordsUpto1(p);
  }

  lemma NormalizeItApossAFourFiveWordsUpto3(s: string)
    requires s == "it's  a four"
    ensures Words(s) == ["it's", "a", "four"]
  {
    var p := s[..7];
    WordsNext(s, p, 1, "four");
    NormalizeItApossAFourFiveWordsUpto2(p);
  }

  lemma NormalizeItApossAFourFiveWordsUpto4(s: string)
    requires s == "it's  a four five"
    ensures Words(s) == ["it's", "a", "four", "five"]
  {
    var p := s[..12];
    WordsNext(s, p, 1, "five");
    NormalizeItApossAFourFiveWordsUpto3(p);
  }

  lemma NormalizeItApossAFourFiveWordsUpto5(s: string)
    requires s == "it's  a four five six"
    ensures Words(s) == ["it's", "a", "four", "five", "six"]
  {
    var p := s[..17];
    WordsNext(s, p, 1, "six");
    NormalizeItApossAFourFiveWordsUpto4(p);
  }

  lemma NormalizeItApossAFourFiveWordsUpto6(s: string)
    requires s == "it's  a four five six  test"
    ensures Words(s) == ["it's", "a", "four", "five", "six", "test"]
  {
    var p := s[..21];
    WordsNext(s, p, 2, "test");
    NormalizeItApossAFourFiveWordsUpto5(p);
  }

  lemma NormalizeItApossAFourFiveExpandedUpto1(ws: seq<string>)
    requires ws == ["it's"]
    ensures ExpandAll(ws) == ["it", "is"]
  {
    ExpandItAposs();
    ExpandAllSnoc([], "it's");
    assert [] + ["it's"] == ws;
  }

  lemma NormalizeItApossAFourFiveExpandedUpto2(ws: seq<string>)
    requires ws == ["it's", "a"]
    ensures ExpandAll(ws) == ["it", "is", "a"]
  {
    var p := ws[..1];
    KeptA();
    ExpandAllSnoc(p, "a");
    assert p + ["a"] == ws;
    NormalizeItApossAFourFiveExpandedUpto1(p);
  }

  lemma NormalizeItApossAFourFiveExpandedUpto3(ws: seq<string>)
    requires ws == ["it's", "a", "four"]
    ensures ExpandAll(ws) == ["it", "is", "a", "four"]
  {
    var p := ws[..2];
    KeptFour();
    ExpandAllSnoc(p, "four");
    assert p + ["four"] == ws;
    NormalizeItApossAFourFiveExpandedUpto2(p);
  }

  lemma NormalizeItApossAFourFiveExpandedUpto4(ws: seq<string>)
    requires ws == ["it's", "a", "four", "five"]
    ensures ExpandAll(ws) == ["it", "is", "a", "four", "five"]
  {
    var p := ws[..3];
    KeptFive();
    ExpandAllSnoc(p, "five");
    assert p + ["five"] == ws;
    NormalizeItApossAFourFiveExpandedUpto3(p);
  }

  lemma NormalizeItApossAFourFiveExpandedUpto5(ws: seq<string>)
    requires ws == ["it's", "a", "four", "five", "six"]
    ensures ExpandAll(ws) == ["it", "is", "a", "four", "five", "six"]
  {
    var p := ws[..4];
    KeptSix();
    ExpandAllSnoc(p, "six");
    assert p + ["six"] == ws;
    NormalizeItApossAFourFiveExpandedUpto4(p);
  }

  lemma NormalizeItApossAFourFiveExpandedUpto6(ws: seq<string>)
    requires ws == ["it's", "a", "four", "five", "six", "test"]
    ensures ExpandAll(ws) == ["it", "is", "a", "four", "five", "six", "test"]
  {
    var p := ws[..5];
    KeptTest();
    ExpandAllSnoc(p, "test");
    assert p + ["test"] == ws;
    NormalizeItApossAFourFiveExpandedUpto5(p);
  }

  lemma NormalizeItApossAFourFiveExpandedWords(s: string)
    requires s == "  it's  a four five six  test"
    ensures ExpandAll(Words(s)) == ["it", "is", "a", "four", "five", "six", "test"]
  {
    var c := s[2..29];
    assert s == Spaces(2) + c + Spaces(0);
    WordsTrimmed(s, 2, c, 0);
    NormalizeItApossAFourFiveWordsUpto6(c);
    NormalizeItApossAFourFiveExpandedUpto6(Words(s));
  }

  lemma NormalizeItApossASevenEightWordsUpto1(s: string)
    requires s == "it's"
    ensures Words(s) == ["it's"]
  {
    WordsOfWordThen(s, "");
    assert s + "" == s;
  }

  lemma NormalizeItApossASevenEightWordsUpto2(s: string)
    requires s == "it's  a"
    ensures Words(s) == ["it's", "a"]
  {
    var p := s[..4];
    WordsNext(s, p, 2, "a");
    NormalizeItApossASevenEightWordsUpto1(p);
  }

  lemma NormalizeItApossASevenEightWordsUpto3(s: string)
    requires s == "it's  a seven"
    ensures Words(s) == ["it's", "a", "seven"]
  {
    var p := s[..7];
    WordsNext(s, p, 1, "seven");
    NormalizeItApossASevenEightWordsUpto2(p);
  }

  lemma NormalizeItApossASevenEightWordsUpto4(s: string)
    requires s == "it's  a seven eight"
    ensures Words(s) == ["it's", "a", "seven", "eight"]
  {
    var p := s[..13];
    WordsNext(s, p, 1, "eight");
    NormalizeItApossASevenEightWordsUpto3(p);
  }

  lemma NormalizeItApossASevenEightWordsUpto5(s: string)
    requires s == "it's  a seven eight nine"
    ensures Words(s) == ["it's", "a", "seven", "eight", "nine"]
  {
    var p := s[..19];
    WordsNext(s, p, 1, "nine");
    NormalizeItApossASevenEightWordsUpto4(p);
  }

  lemma NormalizeItApossASevenEightWordsUpto6(s: string)
    requires s == "it's  a seven eight nine test"
    ensures Words(s) == ["it's", "a", "seven", "eight", "nine", "test"]
  {
    var p := s[..24];
    WordsNext(s, p, 1, "test");
    NormalizeItApossASevenEightWordsUpto5(p);
  }

  lemma NormalizeItApossASevenEightExpandedUpto1(ws: seq<string>)
    requires ws == ["it's"]
    ensures ExpandAll(ws) == ["it", "is"]
  {
    ExpandItAposs();
    ExpandAllSnoc([], "it's");
    assert [] + ["it's"] == ws;
  }

  lemma NormalizeItApossASevenEightExpandedUpto2(ws: seq<string>)
    requires ws == ["it's", "a"]
    ensures ExpandAll(ws) == ["it", "is", "a"]
  {
    var p := ws[..1];
    KeptA();
    ExpandAllSnoc(p, "a");
    assert p + ["a"] == ws;
    NormalizeItApossASevenEightExpandedUpto1(p);
  }

  lemma NormalizeItApossASevenEightExpandedUpto3(ws: seq<string>)
    requires ws == ["it's", "a", "seven"]
    ensures ExpandAll(ws) == ["it", "is", "a", "seven"]
  {
    var p := ws[..2];
    KeptSeven();
    ExpandAllSnoc(p, "seven");
    assert p + ["seven"] == ws;
    NormalizeItApossASevenEightExpandedUpto2(p);
  }

  lemma NormalizeItApossASevenEightExpandedUpto4(ws: seq<string>)
    requires ws == ["it's", "a", "seven", "eight"]
    ensures ExpandAll(ws) == ["it", "is", "a", "seven", "eight"]
  {
    var p := ws[..3];
    KeptEight();
    ExpandAllSnoc(p, "eight");
    assert p + ["eight"] == ws;
    NormalizeItApossASevenEightExpandedUpto3(p);
  }

  lemma NormalizeItApossASevenEightExpandedUpto5(ws: seq<string>)
    requires ws == ["it's", "a", "seven", "eight", "nine"]
    ensures ExpandAll(ws) == ["it", "is", "a", "seven", "eight", "nine"]
  {
    var p := ws[..4];
    KeptNine();
    ExpandAllSnoc(p, "nine");
    assert p + ["nine"] == ws;
    NormalizeItApossASevenEightExpandedUpto4(p);
  }

  lemma NormalizeItApossASevenEightExpandedUpto6(ws: seq<string>)
    requires ws == ["it's", "a", "seven", "eight", "nine", "test"]
    ensures ExpandAll(ws) == ["it", "is", "a", "seven", "eight", "nine", "test"]
  {
    var p := ws[..5];
    KeptTest();
    ExpandAllSnoc(p, "test");
    assert p + ["test"] == ws;
    NormalizeItApossASevenEightExpandedUpto5(p);
  }

  lemma NormalizeItApossASevenEightExpandedWords(s: string)
    requires s == "it's  a seven eight nine test"
    ensures ExpandAll(Words(s)) == ["it", "is", "a", "seven", "eight", "nine", "test"]
  {
    NormalizeItApossASevenEightWordsUpto6(s);
    NormalizeItApossASevenEightExpandedUpto6(Words(s));
  }

  lemma NormalizeThatApossOneHundredWordsUpto1(s: string)
    requires s == "that's"
    ensures Words(s) == ["that's"]
  {
    WordsOfWordThen(s, "");
    assert s + "" == s;
  }

  lemma NormalizeThatApossOneHundredWordsUpto2(s: string)
    requires s == "that's one"
    ensures Words(s) == ["that's", "one"]
  {
    var p := s[..6];
    WordsNext(s, p, 1, "one");
    NormalizeThatApossOneHundredWordsUpto1(p);
  }

  lemma NormalizeThatApossOneHundredWordsUpto3(s: string)
    requires s == "that's one hundred"
    ensures Words(s) == ["that's", "one", "hundred"]
  {
    var p := s[..10];
    WordsNext(s, p, 1, "hundred");
    NormalizeThatApossOneHundredWordsUpto2(p);
  }

  lemma NormalizeThatApossOneHundredExpandedUpto1(ws: seq<string>)
    requires ws == ["that's"]
    ensures ExpandAll(ws) == ["that", "is"]
  {
    ExpandThatAposs();
    ExpandAllSnoc([], "that's");
    assert [] + ["that's"] == ws;
  }

  lemma NormalizeThatApossOneHundredExpandedUpto2(ws: seq<string>)
    requires ws == ["that's", "one"]
    ensures ExpandAll(ws) == ["that", "is", "one"]
  {
    var p := ws[..1];
    KeptOne();
    ExpandAllSnoc(p, "one");
    assert p + ["one"] == ws;
    NormalizeThatApossOneHundredExpandedUpto1(p);
  }

  lemma NormalizeThatApossOneHundredExpandedUpto3(ws: seq<string>)
    requires ws == ["that's", "one", "hundred"]
    ensures ExpandAll(ws) == ["that", "is", "one", "hundred"]
  {
    var p := ws[..2];
    KeptHundred();
    ExpandAllSnoc(p, "hundred");
    assert p + ["hundred"] == ws;
    NormalizeThatApossOneHundredExpandedUpto2(p);
  }

  lemma NormalizeThatApossOneHundredExpandedWords(s: string)
    requires s == "that's one hundred"
    ensures ExpandAll(Words(s)) == ["that", "is", "one", "hundred"]
  {
    NormalizeThatApossOneHundredWordsUpto3(s);
    NormalizeThatApossOneHundredExpandedUpto3(Words(s));
  }

  lemma NormalizeThatApossOneAndAWordsUpto1(s: string)
    requires s == "that's"
    ensures Words(s) == ["that's"]
  {
    WordsOfWordThen(s, "");
    assert s + "" == s;
  }

  lemma NormalizeThatApossOneAndAWordsUpto2(s: string)
    requires s == "that's one"
    ensures Words(s) == ["that's", "one"]
  {
    var p := s[..6];
    WordsNext(s, p, 1, "one");
    NormalizeThatApossOneAndAWordsUpto1(p);
  }

  lemma NormalizeThatApossOneAndAWordsUpto3(s: string)
    requires s == "that's one and"
    ensures Words(s) == ["that's", "one", "and"]
  {
    var p := s[..10];
    WordsNext(s, p, 1, "and");
    NormalizeThatApossOneAndAWordsUpto2(p);
  }

  lemma NormalizeThatApossOneAndAWordsUpto4(s: string)
    requires s == "that's one and a"
    ensures Words(s) == ["that's", "one", "and", "a"]
  {
    var p := s[..14];
    WordsNext(s, p, 1, "a");
    NormalizeThatApossOneAndAWordsUpto3(p);
  }

  lemma NormalizeThatApossOneAndAWordsUpto5(s: string)
    requires s == "that's one and a half"
    ensures Words(s) == ["that's", "one", "and", "a", "half"]
  {
    var p := s[..16];
    WordsNext(s, p, 1, "half");
    NormalizeThatApossOneAndAWordsUpto4(p);
  }

  lemma NormalizeThatApossOneAndAExpandedUpto1(ws: seq<string>)
    requires ws == ["that's"]
    ensures ExpandAll(ws) == ["that", "is"]
  {
    ExpandThatAposs();
    ExpandAllSnoc([], "that's");
    assert [] + ["that's"] == ws;
  }

  lemma NormalizeThatApossOneAndAExpandedUpto2(ws: seq<string>)
    requires ws == ["that's", "one"]
    ensures ExpandAll(ws) == ["that", "is", "one"]
  {
    var p := ws[..1];
    KeptOne();
    ExpandAllSnoc(p, "one");
    assert p + ["one"] == ws;
    NormalizeThatApossOneAndAExpandedUpto1(p);
  }

  lemma NormalizeThatApossOneAndAExpandedUpto3(ws: seq<string>)
    requires ws == ["that's", "one", "and"]
    ensures ExpandAll(ws) == ["that", "is", "one", "and"]
  {
    var p := ws[..2];
    KeptAnd();
    ExpandAllSnoc(p, "and");
    assert p + ["and"] == ws;
    NormalizeThatApossOneAndAExpandedUpto2(p);
  }

  lemma NormalizeThatApossOneAndAExpandedUpto4(ws: seq<string>)
    requires ws == ["that's", "one", "and", "a"]
    ensures ExpandAll(ws) == ["that", "is", "one", "and", "a"]
  {
    var p := ws[..3];
    KeptA();
    ExpandAllSnoc(p, "a");
    assert p + ["a"] == ws;
    NormalizeThatApossOneAndAExpandedUpto3(p);
  }

  lemma NormalizeThatApossOneAndAExpandedUpto5(ws: seq<string>)
    requires ws == ["that's", "one", "and", "a", "half"]
    ensures ExpandAll(ws) == ["that", "is", "one", "and", "a", "half"]
  {
    var p := ws[..4];
    KeptHalf();
    ExpandAllSnoc(p, "half");
    assert p + ["half"] == ws;
    NormalizeThatApossOneAndAExpandedUpto4(p);
  }

  lemma NormalizeThatApossOneAndAExpandedWords(s: string)
    requires s == "that's one and a half"
    ensures ExpandAll(Words(s)) == ["that", "is", "one", "and", "a", "half"]
  {
    NormalizeThatApossOneAndAWordsUpto5(s);
    NormalizeThatApossOneAndAExpandedUpto5(Words(s));
  }

  lemma NormalizeAinApostWordsUpto1(s: string)
    requires s == "ain't"
    ensures Words(s) == ["ain't"]
  {
    WordsOfWordThen(s, "");
    assert s + "" == s;
  }

  lemma NormalizeAinApostExpandedUpto1(ws: seq<string>)
    requires ws == ["ain't"]
    ensures ExpandAll(ws) == ["is", "not"]
  {
    ExpandAinApost();
    ExpandAllSnoc([], "ain't");
    assert [] + ["ain't"] == ws;
  }

  lemma NormalizeAinApostExpandedWords(s: string)
    requires s == "ain't"
    ensures ExpandAll(Words(s)) == ["is", "not"]
  {
    NormalizeAinApostWordsUpto1(s);
    NormalizeAinApostExpandedUpto1(Words(s));
  }

  lemma NormalizeGonnaWordsUpto1(s: string)
    requires s == "gonna"
    ensures Words(s) == ["gonna"]
  {
    WordsOfWordThen(s, "");
    assert s + "" == s;
  }

  lemma NormalizeGonnaExpandedUpto1(ws: seq<string>)
    requires ws == ["gonna"]
    ensures ExpandAll(ws) == ["going", "to"]
  {
    ExpandGonna();
    ExpandAllSnoc([], "gonna");
    assert [] + ["gonna"] == ws;
  }

  lemma NormalizeGonnaExpandedWords(s: string)
    requires s == "gonna"
    ensures ExpandAll(Words(s)) == ["going", "to"]
  {
    NormalizeGonnaWordsUpto1(s);
    NormalizeGonnaExpandedUpto1(Words(s));
  }

  lemma NormalizeGottaWordsUpto1(s: string)
    requires s == "gotta"
    ensures Words(s) == ["gotta"]
  {
    WordsOfWordThen(s, "");
    assert s + "" == s;
  }

  lemma NormalizeGottaExpandedUpto1(ws: seq<string>)
    requires ws == ["gotta"]
    ensures ExpandAll(ws) == ["got", "to"]
  {
    ExpandGotta();
    ExpandAllSnoc([], "gotta");
    assert [] + ["gotta"] == ws;
  }

  lemma NormalizeGottaExpandedWords(s: string)
    requires s == "gotta"
    ensures ExpandAll(Words(s)) == ["got", "to"]
  {
    NormalizeGottaWordsUpto1(s);
    NormalizeGottaExpandedUpto1(Words(s));
  }

  lemma NormalizeHadnApostHaveWordsUpto1(s: string)
    requires s == "hadn't"
    ensures Words(s) == ["hadn't"]
  {
    WordsOfWordThen(s, "");
    assert s + "" == s;
  }

  lemma NormalizeHadnApostHaveWordsUpto2(s: string)
    requires s == "hadn't have"
    ensures Words(s) == ["hadn't", "have"]
  {
    var p := s[..6];
    WordsNext(s, p, 1, "have");
    NormalizeHadnApostHaveWordsUpto1(p);
  }

  lemma NormalizeHadnApostHaveExpandedUpto1(ws: seq<string>)
    requires ws == ["hadn't"]
    ensures ExpandAll(ws) == ["had", "not"]
  {
    ExpandHadnApost();
    ExpandAllSnoc([], "hadn't");
    assert [] + ["hadn't"] == ws;
  }

  lemma NormalizeHadnApostHaveExpandedUpto2(ws: seq<string>)
    requires ws == ["hadn't", "have"]
    ensures ExpandAll(ws) == ["had", "not", "have"]
  {
    var p := ws[..1];
    KeptHave();
    ExpandAllSnoc(p, "have");
    assert p + ["have"] == ws;
    NormalizeHadnApostHaveExpandedUpto1(p);
  }

  lemma NormalizeHadnApostHaveExpandedWords(s: string)
    requires s == "hadn't have"
    ensures ExpandAll(Words(s)) == ["had", "not", "have"]
  {
    NormalizeHadnApostHaveWordsUpto2(s);
    NormalizeHadnApostHaveExpandedUpto2(Words(s));
  }

  lemma NormalizeIHavenApostWordsUpto1(s: string)
    requires s == "I"
    ensures Words(s) == ["I"]
  {
    WordsOfWordThen(s, "");
    assert s + "" == s;
  }

  lemma NormalizeIHavenApostWordsUpto2(s: string)
    requires s == "I haven't"
    ensures Words(s) == ["I", "haven't"]
  {
    var p := s[..1];
    WordsNext(s, p, 1, "haven't");
    NormalizeIHavenApostWordsUpto1(p);
  }

  lemma NormalizeIHavenApostExpandedUpto1(ws: seq<string>)
    requires ws == ["I"]
    ensures ExpandAll(ws) == ["I"]
  {
    KeptI();
    ExpandAllSnoc([], "I");
    assert [] + ["I"] == ws;
  }

  lemma NormalizeIHavenApostExpandedUpto2(ws: seq<string>)
    requires ws == ["I", "haven't"]
    ensures ExpandAll(ws) == ["I", "have", "not"]
  {
    var p := ws[..1];
    ExpandHavenApost();
    ExpandAllSnoc(p, "haven't");
    assert p + ["haven't"] == ws;
    NormalizeIHavenApostExpandedUpto1(p);
  }

  lemma NormalizeIHavenApostExpandedWords(s: string)
    requires s == "I haven't"
    ensures ExpandAll(Words(s)) == ["I", "have", "not"]
  {
    NormalizeIHavenApostWordsUpto2(s);
    NormalizeIHavenApostExpandedUpto2(Words(s));
  }

  lemma NormalizeThatApossWordsUpto1(s: string)
    requires s == "that's"
    ensures Words(s) == ["that's"]
  {
    WordsOfWordThen(s, "");
    assert s + "" == s;
  }

  lemma NormalizeThatApossExpandedUpto1(ws: seq<string>)
    requires ws == ["that's"]
    ensures ExpandAll(ws) == ["that", "is"]
  {
    ExpandThatAposs();
    ExpandAllSnoc([], "that's");
    assert [] + ["that's"] == ws;
  }

  lemma NormalizeThatApossExpandedWords(s: string)
    requires s == "that's"
    ensures ExpandAll(Words(s)) == ["that", "is"]
  {
    NormalizeThatApossWordsUpto1(s);
    NormalizeThatApossExpandedUpto1(Words(s));
  }

  lemma NormalizeTheyWonApostHaveWordsUpto1(s: string)
    requires s == "they"
    ensures Words(s) == ["they"]
  {
    WordsOfWordThen(s, "");
    assert s + "" == s;
  }

  lemma NormalizeTheyWonApostHaveWordsUpto2(s: string)
    requires s == "they won't"
    ensures Words(s) == ["they", "won't"]
  {
    var p := s[..4];
    WordsNext(s, p, 1, "won't");
    NormalizeTheyWonApostHaveWordsUpto1(p);
  }

  lemma NormalizeTheyWonApostHaveWordsUpto3(s: string)
    requires s == "they won't have"
    ensures Words(s) == ["they", "won't", "have"]
  {
    var p := s[..10];
    WordsNext(s, p, 1, "have");
    NormalizeTheyWonApostHaveWordsUpto2(p);
  }

  lemma NormalizeTheyWonApostHaveExpandedUpto1(ws: seq<string>)
    requires ws == ["they"]
    ensures ExpandAll(ws) == ["they"]
  {
    KeptThey();
    ExpandAllSnoc([], "they");
    assert [] + ["they"] == ws;
  }

  lemma NormalizeTheyWonApostHaveExpandedUpto2(ws: seq<string>)
    requires ws == ["they", "won't"]
    ensures ExpandAll(ws) == ["they", "will", "not"]
  {
    var p := ws[..1];
    ExpandWonApost();
    ExpandAllSnoc(p, "won't");
    assert p + ["won't"] == ws;
    NormalizeTheyWonApostHaveExpandedUpto1(p);
  }

  lemma NormalizeTheyWonApostHaveExpandedUpto3(ws: seq<string>)
    requires ws == ["they", "won't", "have"]
    ensures ExpandAll(ws) == ["they", "will", "not", "have"]
  {
    var p := ws[..2];
    KeptHave();
    ExpandAllSnoc(p, "have");
    assert p + ["have"] == ws;
    NormalizeTheyWonApostHaveExpandedUpto2(p);
  }

  lemma NormalizeTheyWonApostHaveExpandedWords(s: string)
    requires s == "they won't have"
    ensures ExpandAll(Words(s)) == ["they", "will", "not", "have"]
  {
    NormalizeTheyWonApostHaveWordsUpto3(s);
    NormalizeTheyWonApostHaveExpandedUpto3(Words(s));
  }

  lemma NormalizeWhatsWordsUpto1(s: string)
    requires s == "whats"
    ensures Words(s) == ["whats"]
  {
    WordsOfWordThen(s, "");
    assert s + "" == s;
  }

  lemma NormalizeWhatsExpandedUpto1(ws: seq<string>)
    requires ws == ["whats"]
    ensures ExpandAll(ws) == ["what", "is"]
  {
    ExpandWhats();
    ExpandAllSnoc([], "whats");
    assert [] + ["whats"] == ws;
  }

  lemma NormalizeWhatsExpandedWords(s: string)
    requires s == "whats"
    ensures ExpandAll(Words(s)) == ["what", "is"]
  {
    NormalizeWhatsWordsUpto1(s);
    NormalizeWhatsExpandedUpto1(Words(s));
  }

  lemma NormalizeWhoAposdAposveWordsUpto1(s: string)
    requires s == "who'd've"
    ensures Words(s) == ["who'd've"]
  {
    WordsOfWordThen(s, "");
    assert s + "" == s;
  }

  lemma NormalizeWhoAposdAposveExpandedUpto1(ws: seq<string>)
    requires ws == ["who'd've"]
    ensures ExpandAll(ws) == ["who", "would", "have"]
  {
    ExpandWhoAposdAposve();
    ExpandAllSnoc([], "who'd've");
    assert [] + ["who'd've"] == ws;
  }

  lemma NormalizeWhoAposdAposveExpandedWords(s: string)
    requires s == "who'd've"
    ensures ExpandAll(Words(s)) == ["who", "would", "have"]
  {
    NormalizeWhoAposdAposveWordsUpto1(s);
    NormalizeWhoAposdAposveExpandedUpto1(Words(s));
  }

  lemma NormalizeWonApostAposveWordsUpto1(s: string)
    requires s == "won't've"
    ensures Words(s) == ["won't've"]
  {
    WordsOfWordThen(s, "");
    assert s + "" == s;
  }

  lemma NormalizeWonApostAposveExpandedUpto1(ws: seq<string>)
    requires ws == ["won't've"]
    ensures ExpandAll(ws) == ["will", "not", "have"]
  {
    ExpandWonApostAposve();
    ExpandAllSnoc([], "won't've");
    assert [] + ["won't've"] == ws;
  }

  lemma NormalizeWonApostAposveExpandedWords(s: string)
    requires s == "won't've"
    ensures ExpandAll(Words(s)) == ["will", "not", "have"]
  {
    NormalizeWonApostAposveWordsUpto1(s);
    NormalizeWonApostAposveExpandedUpto1(Words(s));
  }

  lemma NormalizeYAposallWordsUpto1(s: string)
    requires s == "y'all"
    ensures Words(s) == ["y'all"]
  {
    WordsOfWordThen(s, "");
    assert s + "" == s;
  }

  lemma NormalizeYAposallExpandedUpto1(ws: seq<string>)
    requires ws == ["y'all"]
    ensures ExpandAll(ws) == ["you", "all"]
  {
    ExpandYAposall();
    ExpandAllSnoc([], "y'all");
    assert [] + ["y'all"] == ws;
  }

  lemma NormalizeYAposallExpandedWords(s: string)
    requires s == "y'all"
    ensures ExpandAll(Words(s)) == ["you", "all"]
  {
    NormalizeYAposallWordsUpto1(s);
    NormalizeYAposallExpandedUpto1(Words(s));
  }

  lemma NormalizeIWouldnApostHaveWordsUpto1(s: string)
    requires s == "I"
    ensures Words(s) == ["I"]
  {
    WordsOfWordThen(s, "");
    assert s + "" == s;
  }

  lemma NormalizeIWouldnApostHaveWordsUpto2(s: string)
    requires s == "I wouldn't"
    ensures Words(s) == ["I", "wouldn't"]
  {
    var p := s[..1];
    WordsNext(s, p, 1, "wouldn't");
    NormalizeIWouldnApostHaveWordsUpto1(p);
  }

  lemma NormalizeIWouldnApostHaveWordsUpto3(s: string)
    requires s == "I wouldn't have"
    ensures Words(s) == ["I", "wouldn't", "have"]
  {
    var p := s[..10];
    WordsNext(s, p, 1, "have");
    NormalizeIWouldnApostHaveWordsUpto2(p);
  }

  lemma NormalizeIWouldnApostHaveExpandedUpto1(ws: seq<string>)
    requires ws == ["I"]
    ensures ExpandAll(ws) == ["I"]
  {
    KeptI();
    ExpandAllSnoc([], "I");
    assert [] + ["I"] == ws;
  }

  lemma NormalizeIWouldnApostHaveExpandedUpto2(ws: seq<string>)
    requires ws == ["I", "wouldn't"]
    ensures ExpandAll(ws) == ["I", "would", "not"]
  {
    var p := ws[..1];
    ExpandWouldnApost();
    ExpandAllSnoc(p, "wouldn't");
    assert p + ["wouldn't"] == ws;
    NormalizeIWouldnApostHaveExpandedUpto1(p);
  }

  lemma NormalizeIWouldnApostHaveExpandedUpto3(ws: seq<string>)
    requires ws == ["I", "wouldn't", "have"]
    ensures ExpandAll(ws) == ["I", "would", "not", "have"]
  {
    var p := ws[..2];
    KeptHave();
    ExpandAllSnoc(p, "have");
    assert p + ["have"] == ws;
    NormalizeIWouldnApostHaveExpandedUpto2(p);
  }

  lemma NormalizeIWouldnApostHaveExpandedWords(s: string)
    requires s == "I wouldn't have"
    ensures ExpandAll(Words(s)) == ["I", "would", "not", "have"]
  {
    NormalizeIWouldnApostHaveWordsUpto3(s);
    NormalizeIWouldnApostHaveExpandedUpto3(Words(s));
  }

  lemma NormalizeIHadnApostBeenThereWordsUpto1(s: string)
    requires s == "I"
    ensures Words(s) == ["I"]
  {
    WordsOfWordThen(s, "");
    assert s + "" == s;
  }

  lemma NormalizeIHadnApostBeenThereWordsUpto2(s: string)
    requires s == "I hadn't"
    ensures Words(s) == ["I", "hadn't"]
  {
    var p := s[..1];
    WordsNext(s, p, 1, "hadn't");
    NormalizeIHadnApostBeenThereWordsUpto1(p);
  }

  lemma NormalizeIHadnApostBeenThereWordsUpto3(s: string)
    requires s == "I hadn't been"
    ensures Words(s) == ["I", "hadn't", "been"]
  {
    var p := s[..8];
    WordsNext(s, p, 1, "been");
    NormalizeIHadnApostBeenThereWordsUpto2(p);
  }

  lemma NormalizeIHadnApostBeenThereWordsUpto4(s: string)
    requires s == "I hadn't been there"
    ensures Words(s) == ["I", "hadn't", "been", "there"]
  {
    var p := s[..13];
    WordsNext(s, p, 1, "there");
    NormalizeIHadnApostBeenThereWordsUpto3(p);
  }

  lemma NormalizeIHadnApostBeenThereExpandedUpto1(ws: seq<string>)
    requires ws == ["I"]
    ensures ExpandAll(ws) == ["I"]
  {
    KeptI();
    ExpandAllSnoc([], "I");
    assert [] + ["I"] == ws;
  }

  lemma NormalizeIHadnApostBeenThereExpandedUpto2(ws: seq<string>)
    requires ws == ["I", "hadn't"]
    ensures ExpandAll(ws) == ["I", "had", "not"]
  {
    var p := ws[..1];
    ExpandHadnApost();
    ExpandAllSnoc(p, "hadn't");
    assert p + ["hadn't"] == ws;
    NormalizeIHadnApostBeenThereExpandedUpto1(p);
  }

  lemma NormalizeIHadnApostBeenThereExpandedUpto3(ws: seq<string>)
    requires ws == ["I", "hadn't", "been"]
    ensures ExpandAll(ws) == ["I", "had", "not", "been"]
  {
    var p := ws[..2];
    KeptBeen();
    ExpandAllSnoc(p, "been");
    assert p + ["been"] == ws;
    NormalizeIHadnApostBeenThereExpandedUpto2(p);
  }

  lemma NormalizeIHadnApostBeenThereExpandedUpto4(ws: seq<string>)
    requires ws == ["I", "hadn't", "been", "there"]
    ensures ExpandAll(ws) == ["I", "had", "not", "been", "there"]
  {
    var p := ws[..3];
    KeptThere();
    ExpandAllSnoc(p, "there");
    assert p + ["there"] == ws;
    NormalizeIHadnApostBeenThereExpandedUpto3(p);
  }

  lemma NormalizeIHadnApostBeenThereExpandedWords(s: string)
    requires s == "I hadn't been there"
    ensures ExpandAll(Words(s)) == ["I", "had", "not", "been", "there"]
  {
    NormalizeIHadnApostBeenThereWordsUpto4(s);
    NormalizeIHadnApostBeenThereExpandedUpto4(Words(s));
  }

  lemma NormalizeWhatApossTheWeatherLikeWordsUpto1(s: string)
    requires s == "what's"
    ensures Words(s) == ["what's"]
  {
    WordsOfWordThen(s, "");
    assert s + "" == s;
  }

  lemma NormalizeWhatApossTheWeatherLikeWordsUpto2(s: string)
    requires s == "what's the"
    ensures Words(s) == ["what's", "the"]
  {
    var p := s[..6];
    WordsNext(s, p, 1, "the");
    NormalizeWhatApossTheWeatherLikeWordsUpto1(p);
  }

  lemma NormalizeWhatApossTheWeatherLikeWordsUpto3(s: string)
    requires s == "what's the weather"
    ensures Words(s) == ["what's", "the", "weather"]
  {
    var p := s[..10];
    WordsNext(s, p, 1, "weather");
    NormalizeWhatApossTheWeatherLikeWordsUpto2(p);
  }

  lemma NormalizeWhatApossTheWeatherLikeWordsUpto4(s: string)
    requires s == "what's the weather like"
    ensures Words(s) == ["what's", "the", "weather", "like"]
  {
    var p := s[..18];
    WordsNext(s, p, 1, "like");
    NormalizeWhatApossTheWeatherLikeWordsUpto3(p);
  }

  lemma NormalizeWhatApossTheWeatherLikeExpandedUpto1(ws: seq<string>)
    requires ws == ["what's"]
    ensures ExpandAll(ws) == ["what", "is"]
  {
    ExpandWhatAposs();
    ExpandAllSnoc([], "what's");
    assert [] + ["what's"] == ws;
  }

  lemma NormalizeWhatApossTheWeatherLikeExpandedUpto2(ws: seq<string>)
    requires ws == ["what's", "the"]
    ensures ExpandAll(ws) == ["what", "is", "the"]
  {
    var p := ws[..1];
    KeptThe();
    ExpandAllSnoc(p, "the");
    assert p + ["the"] == ws;
    NormalizeWhatApossTheWeatherLikeExpandedUpto1(p);
  }

  lemma NormalizeWhatApossTheWeatherLikeExpandedUpto3(ws: seq<string>)
    requires ws == ["what's", "the", "weather"]
    ensures ExpandAll(ws) == ["what", "is", "the", "weather"]
  {
    var p := ws[..2];
    KeptWeather();
    ExpandAllSnoc(p, "weather");
    assert p + ["weather"] == ws;
    NormalizeWhatApossTheWeatherLikeExpandedUpto2(p);
  }

  lemma NormalizeWhatApossTheWeatherLikeExpandedUpto4(ws: seq<string>)
    requires ws == ["what's", "the", "weather", "like"]
    ensures ExpandAll(ws) == ["what", "is", "the", "weather", "like"]
  {
    var p := ws[..3];
    KeptLike();
    ExpandAllSnoc(p, "like");
    assert p + ["like"] == ws;
    NormalizeWhatApossTheWeatherLikeExpandedUpto3(p);
  }

  lemma NormalizeWhatApossTheWeatherLikeExpandedWords(s: string)
    requires s == "what's the weather like"
    ensures ExpandAll(Words(s)) == ["what", "is", "the", "weather", "like"]
  {
    NormalizeWhatApossTheWeatherLikeWordsUpto4(s);
    NormalizeWhatApossTheWeatherLikeExpandedUpto4(Words(s));
  }

  lemma NormalizeWhats8Plus4WordsUpto1(s: string)
    requires s == "whats"
    ensures Words(s) == ["whats"]
  {
    WordsOfWordThen(s, "");
    assert s + "" == s;
  }

  lemma NormalizeWhats8Plus4WordsUpto2(s: string)
    requires s == "whats 8"
    ensures Words(s) == ["whats", "8"]
  {
    var p := s[..5];
    WordsNext(s, p, 1, "8");
    NormalizeWhats8Plus4WordsUpto1(p);
  }

  lemma NormalizeWhats8Plus4WordsUpto3(s: string)
    requires s == "whats 8 +"
    ensures Words(s) == ["whats", "8", "+"]
  {
    var p := s[..7];
    WordsNext(s, p, 1, "+");
    NormalizeWhats8Plus4WordsUpto2(p);
  }

  lemma NormalizeWhats8Plus4WordsUpto4(s: string)
    requires s == "whats 8 + 4"
    ensures Words(s) == ["whats", "8", "+", "4"]
  {
    var p := s[..9];
    WordsNext(s, p, 1, "4");
    NormalizeWhats8Plus4WordsUpto3(p);
  }

  lemma NormalizeWhats8Plus4ExpandedUpto1(ws: seq<string>)
    requires ws == ["whats"]
    ensures ExpandAll(ws) == ["what", "is"]
  {
    ExpandWhats();
    ExpandAllSnoc([], "whats");
    assert [] + ["whats"] == ws;
  }

  lemma NormalizeWhats8Plus4ExpandedUpto2(ws: seq<string>)
    requires ws == ["whats", "8"]
    ensures ExpandAll(ws) == ["what", "is", "8"]
  {
    var p := ws[..1];
    Kept8();
    ExpandAllSnoc(p, "8");
    assert p + ["8"] == ws;
    NormalizeWhats8Plus4ExpandedUpto1(p);
  }

  lemma NormalizeWhats8Plus4ExpandedUpto3(ws: seq<string>)
    requires ws == ["whats", "8", "+"]
    ensures ExpandAll(ws) == ["what", "is", "8", "+"]
  {
    var p := ws[..2];
    KeptPlus();
    ExpandAllSnoc(p, "+");
    assert p + ["+"] == ws;
    NormalizeWhats8Plus4ExpandedUpto2(p);
  }

  lemma NormalizeWhats8Plus4ExpandedUpto4(ws: seq<string>)
    requires ws == ["whats", "8", "+", "4"]
    ensures ExpandAll(ws) == ["what", "is", "8", "+", "4"]
  {
    var p := ws[..3];
    Kept4();
    ExpandAllSnoc(p, "4");
    assert p + ["4"] == ws;
    NormalizeWhats8Plus4ExpandedUpto3(p);
  }

  lemma NormalizeWhats8Plus4ExpandedWords(s: string)
    requires s == "whats 8 + 4"
    ensures ExpandAll(Words(s)) == ["what", "is", "8", "+", "4"]
  {
    NormalizeWhats8Plus4WordsUpto4(s);
    NormalizeWhats8Plus4ExpandedUpto4(Words(s));
  }
}

/** The `normalize` assertions of the English parser tests, each read
    through the model stage by stage: the text's words, their expansion,
    the readings of the expanded words, the pieces stage two writes, the
    words those pieces are written as, the articles dropped and the words
    joined again. */
module NormalizeExamples {
  import opened Options
  import opened Text
  import opened EnglishWords
  import opened Extract
  import opened ContractionTable
  import opened Normalize
  import opened ExpansionExamples
  import opened ExtractExamples

  lemma NotSmallAnother()
    ensures SmallToken("another") == None
  {
    assert "another" !in SmallNames;
  }

  lemma NotTensAnother()
    ensures TensToken("another") == None
  {
    assert "another" !in TensNames;
  }

  lemma NotScaleAnother()
    ensures ScaleWordIndex("another") == None
  {
  }

  lemma NotDigitsAnother()
    ensures DigitsPart("another") == None
  {
    assert !IsDigit("another"[0]);
  }

  lemma ReadAnother(shortScale: bool)
    ensures Classify("another", shortScale) == OtherWord
  {
    NotSmallAnother();
    NotTensAnother();
    NotScaleAnother();
    NotDigitsAnother();
    OrdinaryWord("another", shortScale);
  }

  lemma NotSmallAn()
    ensures SmallToken("an") == None
  {
    assert "an" !in SmallNames;
  }

  lemma NotTensAn()
    ensures TensToken("an") == None
  {
    assert "an" !in TensNames;
  }

  lemma NotScaleAn()
    ensures ScaleWordIndex("an") == None
  {
  }

  lemma NotDigitsAn()
    ensures DigitsPart("an") == None
  {
    assert !IsDigit("an"[0]);
  }

  lemma ReadAn(shortScale: bool)
    ensures Classify("an", shortScale) == OtherWord
  {
    NotSmallAn();
    NotTensAn();
    NotScaleAn();
    NotDigitsAn();
    OrdinaryWord("an", shortScale);
  }

  lemma NotSmallExtra()
    ensures SmallToken("extra") == None
  {
    assert "extra" !in SmallNames;
  }

  lemma NotTensExtra()
    ensures TensToken("extra") == None
  {
    assert "extra" !in TensNames;
  }

  lemma NotScaleExtra()
    ensures ScaleWordIndex("extra") == None
  {
  }

  lemma NotDigitsExtra()
    ensures DigitsPart("extra") == None
  {
    assert !IsDigit("extra"[0]);
  }

  lemma ReadExtra(shortScale: bool)
    ensures Classify("extra", shortScale) == OtherWord
  {
    NotSmallExtra();
    NotTensExtra();
    NotScaleExtra();
    NotDigitsExtra();
    OrdinaryWord("extra", shortScale);
  }

  lemma NotSmallTo()
    ensures SmallToken("to") == None
  {
    assert "to" !in SmallNames;
  }

  lemma NotTensTo()
    ensures TensToken("to") == None
  {
    assert "to" !in TensNames;
  }

  lemma NotScaleTo()
    ensures ScaleWordIndex("to") == None
  {
  }

  lemma NotDigitsTo()
    ensures DigitsPart("to") == None
  {
    assert !IsDigit("to"[0]);
  }

  lemma ReadTo(shortScale: bool)
    ensures Classify("to", shortScale) == OtherWord
  {
    NotSmallTo();
    NotTensTo();
    NotScaleTo();
    NotDigitsTo();
    OrdinaryWord("to", shortScale);
  }

  lemma NotSmallDo()
    ensures SmallToken("do") == None
  {
    assert "do" !in SmallNames;
  }

  lemma NotTensDo()
    ensures TensToken("do") == None
  {
    assert "do" !in TensNames;
  }

  lemma NotScaleDo()
    ensures ScaleWordIndex("do") == None
  {
  }

  lemma NotDigitsDo()
    ensures DigitsPart("do") == None
  {
    assert !IsDigit("do"[0]);
  }

  lemma ReadDo(shortScale: bool)
    ensures Classify("do", shortScale) == OtherWord
  {
    NotSmallDo();
    NotTensDo();
    NotScaleDo();
    NotDigitsDo();
    OrdinaryWord("do", shortScale);
  }

  lemma NotSmallSomething()
    ensures SmallToken("something") == None
  {
    assert "something" !in SmallNames;
  }

  lemma NotTensSomething()
    ensures TensToken("something") == None
  {
    assert "something" !in TensNames;
  }

  lemma NotScaleSomething()
    ensures ScaleWordIndex("something") == None
  {
  }

  lemma NotDigitsSomething()
    ensures DigitsPart("something") == None
  {
    assert !IsDigit("something"[0]);
  }

  lemma ReadSomething(shortScale: bool)
    ensures Classify("something", shortScale) == OtherWord
  {
    NotSmallSomething();
    NotTensSomething();
    NotScaleSomething();
    NotDigitsSomething();
    OrdinaryWord("something", shortScale);
  }

  lemma NotSmallAt()
    ensures SmallToken("at") == None
  {
    assert "at" !in SmallNames;
  }

  lemma NotTensAt()
    ensures TensToken("at") == None
  {
    assert "at" !in TensNames;
  }

  lemma NotScaleAt()
    ensures ScaleWordIndex("at") == None
  {
  }

  lemma NotDigitsAt()
    ensures DigitsPart("at") == None
  {
    assert !IsDigit("at"[0]);
  }

  lemma ReadAt(shortScale: bool)
    ensures Classify("at", shortScale) == OtherWord
  {
    NotSmallAt();
    NotTensAt();
    NotScaleAt();
    NotDigitsAt();
    OrdinaryWord("at", shortScale);
  }

  lemma NotSmallWhat()
    ensures SmallToken("what") == None
  {
    assert "what" !in SmallNames;
  }

  lemma NotTensWhat()
    ensures TensToken("what") == None
  {
    assert "what" !in TensNames;
  }

  lemma NotScaleWhat()
    ensures ScaleWordIndex("what") == None
  {
  }

  lemma NotDigitsWhat()
    ensures DigitsPart("what") == None
  {
    assert !IsDigit("what"[0]);
  }

  lemma ReadWhat(shortScale: bool)
    ensures Classify("what", shortScale) == OtherWord
  {
    NotSmallWhat();
    NotTensWhat();
    NotScaleWhat();
    NotDigitsWhat();
    OrdinaryWord("what", shortScale);
  }

  lemma NotSmallTime()
    ensures SmallToken("time") == None
  {
    assert "time" !in SmallNames;
  }

  lemma NotTensTime()
    ensures TensToken("time") == None
  {
    assert "time" !in TensNames;
  }

  lemma NotScaleTime()
    ensures ScaleWordIndex("time") == None
  {
  }

  lemma NotDigitsTime()
    ensures DigitsPart("time") == None
  {
    assert !IsDigit("time"[0]);
  }

  lemma ReadTime(shortScale: bool)
    ensures Classify("time", shortScale) == OtherWord
  {
    NotSmallTime();
    NotTensTime();
    NotScaleTime();
    NotDigitsTime();
    OrdinaryWord("time", shortScale);
  }

  lemma NotSmallWill()
    ensures SmallToken("will") == None
  {
    assert "will" !in SmallNames;
  }

  lemma NotTensWill()
    ensures TensToken("will") == None
  {
    assert "will" !in TensNames;
  }

  lemma NotScaleWill()
    ensures ScaleWordIndex("will") == None
  {
  }

  lemma NotDigitsWill()
    ensures DigitsPart("will") == None
  {
    assert !IsDigit("will"[0]);
  }

  lemma ReadWill(shortScale: bool)
    ensures Classify("will", shortScale) == OtherWord
  {
    NotSmallWill();
    NotTensWill();
    NotScaleWill();
    NotDigitsWill();
    OrdinaryWord("will", shortScale);
  }

  lemma NotSmallIt()
    ensures SmallToken("it") == None
  {
    assert "it" !in SmallNames;
  }

  lemma NotTensIt()
    ensures TensToken("it") == None
  {
    assert "it" !in TensNames;
  }

  lemma NotScaleIt()
    ensures ScaleWordIndex("it") == None
  {
  }

  lemma NotDigitsIt()
    ensures DigitsPart("it") == None
  {
    assert !IsDigit("it"[0]);
  }

  lemma ReadIt(shortScale: bool)
    ensures Classify("it", shortScale) == OtherWord
  {
    NotSmallIt();
    NotTensIt();
    NotScaleIt();
    NotDigitsIt();
    OrdinaryWord("it", shortScale);
  }

  lemma NotSmallBe()
    ensures SmallToken("be") == None
  {
    assert "be" !in SmallNames;
  }

  lemma NotTensBe()
    ensures TensToken("be") == None
  {
    assert "be" !in TensNames;
  }

  lemma NotScaleBe()
    ensures ScaleWordIndex("be") == None
  {
  }

  lemma NotDigitsBe()
    ensures DigitsPart("be") == None
  {
    assert !IsDigit("be"[0]);
  }

  lemma ReadBe(shortScale: bool)
    ensures Classify("be", shortScale) == OtherWord
  {
    NotSmallBe();
    NotTensBe();
    NotScaleBe();
    NotDigitsBe();
    OrdinaryWord("be", shortScale);
  }

  lemma NotSmallMinutes()
    ensures SmallToken("minutes") == None
  {
    assert "minutes" !in SmallNames;
  }

  lemma NotTensMinutes()
    ensures TensToken("minutes") == None
  {
    assert "minutes" !in TensNames;
  }

  lemma NotScaleMinutes()
    ensures ScaleWordIndex("minutes") == None
  {
  }

  lemma NotDigitsMinutes()
    ensures DigitsPart("minutes") == None
  {
    assert !IsDigit("minutes"[0]);
  }

  lemma ReadMinutes(shortScale: bool)
    ensures Classify("minutes", shortScale) == OtherWord
  {
    NotSmallMinutes();
    NotTensMinutes();
    NotScaleMinutes();
    NotDigitsMinutes();
    OrdinaryWord("minutes", shortScale);
  }

  lemma NotSmallWhole()
    ensures SmallToken("whole") == None
  {
    assert "whole" !in SmallNames;
  }

  lemma NotTensWhole()
    ensures TensToken("whole") == None
  {
    assert "whole" !in TensNames;
  }

  lemma NotScaleWhole()
    ensures ScaleWordIndex("whole") == None
  {
  }

  lemma NotDigitsWhole()
    ensures DigitsPart("whole") == None
  {
    assert !IsDigit("whole"[0]);
  }

  lemma ReadWhole(shortScale: bool)
    ensures Classify("whole", shortScale) == OtherWord
  {
    NotSmallWhole();
    NotTensWhole();
    NotScaleWhole();
    NotDigitsWhole();
    OrdinaryWord("whole", shortScale);
  }

  lemma NotSmallHour()
    ensures SmallToken("hour") == None
  {
    assert "hour" !in SmallNames;
  }

  lemma NotTensHour()
    ensures TensToken("hour") == None
  {
    assert "hour" !in TensNames;
  }

  lemma NotScaleHour()
    ensures ScaleWordIndex("hour") == None
  {
  }

  lemma NotDigitsHour()
    ensures DigitsPart("hour") == None
  {
    assert !IsDigit("hour"[0]);
  }

  lemma ReadHour(shortScale: bool)
    ensures Classify("hour", shortScale) == OtherWord
  {
    NotSmallHour();
    NotTensHour();
    NotScaleHour();
    NotDigitsHour();
    OrdinaryWord("hour", shortScale);
  }

  lemma NotSmallHalf()
    ensures SmallToken("half") == None
  {
    assert "half" !in SmallNames;
  }

  lemma NotTensHalf()
    ensures TensToken("half") == None
  {
    assert "half" !in TensNames;
  }

  lemma NotScaleHalf()
    ensures ScaleWordIndex("half") == None
  {
  }

  lemma NotDigitsHalf()
    ensures DigitsPart("half") == None
  {
    assert !IsDigit("half"[0]);
  }

  lemma ReadHalf(shortScale: bool)
    ensures Classify("half", shortScale) == OtherWord
  {
    NotSmallHalf();
    NotTensHalf();
    NotScaleHalf();
    NotDigitsHalf();
    OrdinaryWord("half", shortScale);
  }

  lemma NotSmallThat()
    ensures SmallToken("that") == None
  {
    assert "that" !in SmallNames;
  }

  lemma NotTensThat()
    ensures TensToken("that") == None
  {
    assert "that" !in TensNames;
  }

  lemma NotScaleThat()
    ensures ScaleWordIndex("that") == None
  {
  }

  lemma NotDigitsThat()
    ensures DigitsPart("that") == None
  {
    assert !IsDigit("that"[0]);
  }

  lemma ReadThat(shortScale: bool)
    ensures Classify("that", shortScale) == OtherWord
  {
    NotSmallThat();
    NotTensThat();
    NotScaleThat();
    NotDigitsThat();
    OrdinaryWord("that", shortScale);
  }

  lemma NotSmallNot()
    ensures SmallToken("not") == None
  {
    assert "not" !in SmallNames;
  }

  lemma NotTensNot()
    ensures TensToken("not") == None
  {
    assert "not" !in TensNames;
  }

  lemma NotScaleNot()
    ensures ScaleWordIndex("not") == None
  {
  }

  lemma NotDigitsNot()
    ensures DigitsPart("not") == None
  {
    assert !IsDigit("not"[0]);
  }

  lemma ReadNot(shortScale: bool)
    ensures Classify("not", shortScale) == OtherWord
  {
    NotSmallNot();
    NotTensNot();
    NotScaleNot();
    NotDigitsNot();
    OrdinaryWord("not", shortScale);
  }

  lemma NotSmallGoing()
    ensures SmallToken("going") == None
  {
    assert "going" !in SmallNames;
  }

  lemma NotTensGoing()
    ensures TensToken("going") == None
  {
    assert "going" !in TensNames;
  }

  lemma NotScaleGoing()
    ensures ScaleWordIndex("going") == None
  {
  }

  lemma NotDigitsGoing()
    ensures DigitsPart("going") == None
  {
    assert !IsDigit("going"[0]);
  }

  lemma ReadGoing(shortScale: bool)
    ensures Classify("going", shortScale) == OtherWord
  {
    NotSmallGoing();
    NotTensGoing();
    NotScaleGoing();
    NotDigitsGoing();
    OrdinaryWord("going", shortScale);
  }

  lemma NotSmallGot()
    ensures SmallToken("got") == None
  {
    assert "got" !in SmallNames;
  }

  lemma NotTensGot()
    ensures TensToken("got") == None
  {
    assert "got" !in TensNames;
  }

  lemma NotScaleGot()
    ensures ScaleWordIndex("got") == None
  {
  }

  lemma NotDigitsGot()
    ensures DigitsPart("got") == None
  {
    assert !IsDigit("got"[0]);
  }

  lemma ReadGot(shortScale: bool)
    ensures Classify("got", shortScale) == OtherWord
  {
    NotSmallGot();
    NotTensGot();
    NotScaleGot();
    NotDigitsGot();
    OrdinaryWord("got", shortScale);
  }

  lemma NotSmallHave()
    ensures SmallToken("have") == None
  {
    assert "have" !in SmallNames;
  }

  lemma NotTensHave()
    ensures TensToken("have") == None
  {
    assert "have" !in TensNames;
  }

  lemma NotScaleHave()
    ensures ScaleWordIndex("have") == None
  {
  }

  lemma NotDigitsHave()
    ensures DigitsPart("have") == None
  {
    assert !IsDigit("have"[0]);
  }

  lemma ReadHave(shortScale: bool)
    ensures Classify("have", shortScale) == OtherWord
  {
    NotSmallHave();
    NotTensHave();
    NotScaleHave();
    NotDigitsHave();
    OrdinaryWord("have", shortScale);
  }

  lemma NotSmallI()
    ensures SmallToken("i") == None
  {
    assert "i" !in SmallNames;
  }

  lemma NotTensI()
    ensures TensToken("i") == None
  {
    assert "i" !in TensNames;
  }

  lemma NotScaleI()
    ensures ScaleWordIndex("i") == None
  {
  }

  lemma NotDigitsI()
    ensures DigitsPart("i") == None
  {
    assert !IsDigit("i"[0]);
  }

  lemma ReadI(shortScale: bool)
    ensures Classify("i", shortScale) == OtherWord
  {
    NotSmallI();
    NotTensI();
    NotScaleI();
    NotDigitsI();
    OrdinaryWord("i", shortScale);
  }

  lemma NotSmallThey()
    ensures SmallToken("they") == None
  {
    assert "they" !in SmallNames;
  }

  lemma NotTensThey()
    ensures TensToken("they") == None
  {
    assert "they" !in TensNames;
  }

  lemma NotScaleThey()
    ensures ScaleWordIndex("they") == None
  {
  }

  lemma NotDigitsThey()
    ensures DigitsPart("they") == None
  {
    assert !IsDigit("they"[0]);
  }

  lemma ReadThey(shortScale: bool)
    ensures Classify("they", shortScale) == OtherWord
  {
    NotSmallThey();
    NotTensThey();
    NotScaleThey();
    NotDigitsThey();
    OrdinaryWord("they", shortScale);
  }

  lemma NotSmallWho()
    ensures SmallToken("who") == None
  {
    assert "who" !in SmallNames;
  }

  lemma NotTensWho()
    ensures TensToken("who") == None
  {
    assert "who" !in TensNames;
  }

  lemma NotScaleWho()
    ensures ScaleWordIndex("who") == None
  {
  }

  lemma NotDigitsWho()
    ensures DigitsPart("who") == None
  {
    assert !IsDigit("who"[0]);
  }

  lemma ReadWho(shortScale: bool)
    ensures Classify("who", shortScale) == OtherWord
  {
    NotSmallWho();
    NotTensWho();
    NotScaleWho();
    NotDigitsWho();
    OrdinaryWord("who", shortScale);
  }

  lemma NotSmallWould()
    ensures SmallToken("would") == None
  {
    assert "would" !in SmallNames;
  }

  lemma NotTensWould()
    ensures TensToken("would") == None
  {
    assert "would" !in TensNames;
  }

  lemma NotScaleWould()
    ensures ScaleWordIndex("would") == None
  {
  }

  lemma NotDigitsWould()
    ensures DigitsPart("would") == None
  {
    assert !IsDigit("would"[0]);
  }

  lemma ReadWould(shortScale: bool)
    ensures Classify("would", shortScale) == OtherWord
  {
    NotSmallWould();
    NotTensWould();
    NotScaleWould();
    NotDigitsWould();
    OrdinaryWord("would", shortScale);
  }

  lemma NotSmallAll()
    ensures SmallToken("all") == None
  {
    assert "all" !in SmallNames;
  }

  lemma NotTensAll()
    ensures TensToken("all") == None
  {
    assert "all" !in TensNames;
  }

  lemma NotScaleAll()
    ensures ScaleWordIndex("all") == None
  {
  }

  lemma NotDigitsAll()
    ensures DigitsPart("all") == None
  {
    assert !IsDigit("all"[0]);
  }

  lemma ReadAll(shortScale: bool)
    ensures Classify("all", shortScale) == OtherWord
  {
    NotSmallAll();
    NotTensAll();
    NotScaleAll();
    NotDigitsAll();
    OrdinaryWord("all", shortScale);
  }

  lemma NotSmallBeen()
    ensures SmallToken("been") == None
  {
    assert "been" !in SmallNames;
  }

  lemma NotTensBeen()
    ensures TensToken("been") == None
  {
    assert "been" !in TensNames;
  }

  lemma NotScaleBeen()
    ensures ScaleWordIndex("been") == None
  {
  }

  lemma NotDigitsBeen()
    ensures DigitsPart("been") == None
  {
    assert !IsDigit("been"[0]);
  }

  lemma ReadBeen(shortScale: bool)
    ensures Classify("been", shortScale) == OtherWord
  {
    NotSmallBeen();
    NotTensBeen();
    NotScaleBeen();
    NotDigitsBeen();
    OrdinaryWord("been", shortScale);
  }

  lemma NotSmallThere()
    ensures SmallToken("there") == None
  {
    assert "there" !in SmallNames;
  }

  lemma NotTensThere()
    ensures TensToken("there") == None
  {
    assert "there" !in TensNames;
  }

  lemma NotScaleThere()
    ensures ScaleWordIndex("there") == None
  {
  }

  lemma NotDigitsThere()
    ensures DigitsPart("there") == None
  {
    assert !IsDigit("there"[0]);
  }

  lemma ReadThere(shortScale: bool)
    ensures Classify("there", shortScale) == OtherWord
  {
    NotSmallThere();
    NotTensThere();
    NotScaleThere();
    NotDigitsThere();
    OrdinaryWord("there", shortScale);
  }

  lemma NotSmallWeather()
    ensures SmallToken("weather") == None
  {
    assert "weather" !in SmallNames;
  }

  lemma NotTensWeather()
    ensures TensToken("weather") == None
  {
    assert "weather" !in TensNames;
  }

  lemma NotScaleWeather()
    ensures ScaleWordIndex("weather") == None
  {
  }

  lemma NotDigitsWeather()
    ensures DigitsPart("weather") == None
  {
    assert !IsDigit("weather"[0]);
  }

  lemma ReadWeather(shortScale: bool)
    ensures Classify("weather", shortScale) == OtherWord
  {
    NotSmallWeather();
    NotTensWeather();
    NotScaleWeather();
    NotDigitsWeather();
    OrdinaryWord("weather", shortScale);
  }

  lemma NotSmallLike()
    ensures SmallToken("like") == None
  {
    assert "like" !in SmallNames;
  }

  lemma NotTensLike()
    ensures TensToken("like") == None
  {
    assert "like" !in TensNames;
  }

  lemma NotScaleLike()
    ensures ScaleWordIndex("like") == None
  {
  }

  lemma NotDigitsLike()
    ensures DigitsPart("like") == None
  {
    assert !IsDigit("like"[0]);
  }

  lemma ReadLike(shortScale: bool)
    ensures Classify("like", shortScale) == OtherWord
  {
    NotSmallLike();
    NotTensLike();
    NotScaleLike();
    NotDigitsLike();
    OrdinaryWord("like", shortScale);
  }

  lemma NotSmall8()
    ensures SmallToken("8") == None
  {
    assert "8" !in SmallNames;
  }

  lemma NotTens8()
    ensures TensToken("8") == None
  {
    assert "8" !in TensNames;
  }

  lemma NotScale8()
    ensures ScaleWordIndex("8") == None
  {
  }

  lemma DigitsOf8()
    ensures DigitsPart("8") == Some("8")
  {
    assert IsDigits("8");
  }

  lemma ValueOf8()
    ensures ParseNat("8") == 8
  {
  }

  lemma Read8(shortScale: bool)
    ensures Classify("8", shortScale) == Digits(8)
  {
    NotSmall8();
    NotTens8();
    NotScale8();
    DigitsOf8();
    ValueOf8();
  }

  lemma NotSmallPlus()
    ensures SmallToken("+") == None
  {
    assert "+" !in SmallNames;
  }

  lemma NotTensPlus()
    ensures TensToken("+") == None
  {
    assert "+" !in TensNames;
  }

  lemma NotScalePlus()
    ensures ScaleWordIndex("+") == None
  {
  }

  lemma NotDigitsPlus()
    ensures DigitsPart("+") == None
  {
    assert !IsDigit("+"[0]);
  }

  lemma ReadPlus(shortScale: bool)
    ensures Classify("+", shortScale) == OtherWord
  {
    NotSmallPlus();
    NotTensPlus();
    NotScalePlus();
    NotDigitsPlus();
    OrdinaryWord("+", shortScale);
  }

  lemma NormalizeThisIsATestLowered(ws: seq<string>)
    requires ws == ["this", "is", "a", "test"]
    ensures MapLower(ws) == ["this", "is", "a", "test"]
  {
    forall i | 0 <= i < 4
      ensures Lower(ws[i]) == ["this", "is", "a", "test"][i]
    {
    }
  }

  lemma NormalizeThisIsATestReadings0(ws: seq<string>, ts: seq<Token>, shortScale: bool)
    requires ws == ["this", "is", "a", "test"]
    requires ts == [OtherWord, OtherWord, OtherWord, OtherWord]
    ensures Tokens(ws, shortScale) == ts
  {
    forall i | 0 <= i < 4
      ensures Classify(ws[i], shortScale) == ts[i]
    {
      if i == 0 { ReadThis(shortScale); }
      else if i == 1 { ReadIs(shortScale); }
      else if i == 2 { ReadA(shortScale); }
      else if i == 3 { ReadTest(shortScale); }
    }
    TokensOfReadings(ws, ts, shortScale);
  }

  lemma NormalizeThisIsATestReadings(shortScale: bool)
    ensures Tokens(["this", "is", "a", "test"], shortScale) == [OtherWord, OtherWord, OtherWord, OtherWord]
  {
    NormalizeThisIsATestReadings0(["this", "is", "a", "test"], [OtherWord, OtherWord, OtherWord, OtherWord], shortScale);
  }

  lemma NormalizeThisIsATestDigitize0(ws: seq<string>, ts: seq<Token>)
    requires ws == ["this", "is", "a", "test"]
    requires ts == [OtherWord, OtherWord, OtherWord, OtherWord]
    ensures Digitize(ws, ts, None, None) == [Plain("this"), Plain("is"), Plain("a"), Plain("test")]
  {
    NormalizeThisIsATestDigitize1(ws[1..], ts[1..]);
  }

  lemma NormalizeThisIsATestDigitize1(ws: seq<string>, ts: seq<Token>)
    requires ws == ["is", "a", "test"]
    requires ts == [OtherWord, OtherWord, OtherWord]
    ensures Digitize(ws, ts, None, None) == [Plain("is"), Plain("a"), Plain("test")]
  {
    NormalizeThisIsATestDigitize2(ws[1..], ts[1..]);
  }

  lemma NormalizeThisIsATestDigitize2(ws: seq<string>, ts: seq<Token>)
    requires ws == ["a", "test"]
    requires ts == [OtherWord, OtherWord]
    ensures Digitize(ws, ts, None, None) == [Plain("a"), Plain("test")]
  {
    NormalizeThisIsATestDigitize3(ws[1..], ts[1..]);
  }

  lemma NormalizeThisIsATestDigitize3(ws: seq<string>, ts: seq<Token>)
    requires ws == ["test"]
    requires ts == [OtherWord]
    ensures Digitize(ws, ts, None, None) == [Plain("test")]
  {
  }

  lemma NormalizeThisIsATestRendered(ps: seq<Piece>)
    requires ps == [Plain("this"), Plain("is"), Plain("a"), Plain("test")]
    ensures Render(ps) == ["this", "is", "a", "test"]
  {
    forall i | 0 <= i < 4
      ensures RenderPiece(ps[i]) == ["this", "is", "a", "test"][i]
    {
    }
  }

  lemma NormalizeThisIsATestDropped0(ws: seq<string>)
    requires ws == ["this", "is", "a", "test"]
    ensures DropArticles(ws) == ["this", "is", "test"]
  {
    NormalizeThisIsATestDropped1(ws[1..]);
  }

  lemma NormalizeThisIsATestDropped1(ws: seq<string>)
    requires ws == ["is", "a", "test"]
    ensures DropArticles(ws) == ["is", "test"]
  {
    NormalizeThisIsATestDropped2(ws[1..]);
  }

  lemma NormalizeThisIsATestDropped2(ws: seq<string>)
    requires ws == ["a", "test"]
    ensures DropArticles(ws) == ["test"]
  {
    NormalizeThisIsATestDropped3(ws[1..]);
  }

  lemma NormalizeThisIsATestDropped3(ws: seq<string>)
    requires ws == ["test"]
    ensures DropArticles(ws) == ["test"]
  {
  }

  lemma NormalizeThisIsATestJoined1(ws: seq<string>)
    requires ws == ["this"]
    ensures Unwords(ws) == "this"
  {
  }

  lemma NormalizeThisIsATestJoined2(ws: seq<string>)
    requires ws == ["this", "is"]
    ensures Unwords(ws) == "this is"
  {
    NormalizeThisIsATestJoined1(ws[..1]);
    JoinWithAppend(" ", ws[..1], ws[1]);
    assert ws == ws[..1] + [ws[1]];
    assert "this" + " " + "is" == "this is";
  }

  lemma NormalizeThisIsATestJoined3(ws: seq<string>)
    requires ws == ["this", "is", "test"]
    ensures Unwords(ws) == "this is test"
  {
    NormalizeThisIsATestJoined2(ws[..2]);
    JoinWithAppend(" ", ws[..2], ws[2]);
    assert ws == ws[..2] + [ws[2]];
    assert "this is" + " " + "test" == "this is test";
  }

  lemma NormalizeThisIsATestDigitWords(ws: seq<string>)
    requires ws == ["this", "is", "a", "test"]
    ensures DigitWords(ws) == ["this", "is", "a", "test"]
  {
    NormalizeThisIsATestLowered(ws);
    NormalizeThisIsATestReadings(true);
    NormalizeThisIsATestDigitize0(ws, [OtherWord, OtherWord, OtherWord, OtherWord]);
    NormalizeThisIsATestRendered([Plain("this"), Plain("is"), Plain("a"), Plain("test")]);
  }

  /** test/test_parse.py:66-67 */
  lemma NormalizeThisIsATest()
    ensures Normalize.Normalize("this is a test", true) == "this is test"
  {
    NormalizeThisIsATestExpandedWords("this is a test");
    NormalizeThisIsATestDigitWords(["this", "is", "a", "test"]);
    NormalizeThisIsATestDropped0(["this", "is", "a", "test"]);
    NormalizeThisIsATestJoined3(["this", "is", "test"]);
    NormalizeByWords("this is a test", true);
  }

  lemma NormalizeThisIsTheTestLowered(ws: seq<string>)
    requires ws == ["this", "is", "the", "test"]
    ensures MapLower(ws) == ["this", "is", "the", "test"]
  {
    forall i | 0 <= i < 4
      ensures Lower(ws[i]) == ["this", "is", "the", "test"][i]
    {
    }
  }

  lemma NormalizeThisIsTheTestReadings0(ws: seq<string>, ts: seq<Token>, shortScale: bool)
    requires ws == ["this", "is", "the", "test"]
    requires ts == [OtherWord, OtherWord, OtherWord, OtherWord]
    ensures Tokens(ws, shortScale) == ts
  {
    forall i | 0 <= i < 4
      ensures Classify(ws[i], shortScale) == ts[i]
    {
      if i == 0 { ReadThis(shortScale); }
      else if i == 1 { ReadIs(shortScale); }
      else if i == 2 { ReadThe(shortScale); }
      else if i == 3 { ReadTest(shortScale); }
    }
    TokensOfReadings(ws, ts, shortScale);
  }

  lemma NormalizeThisIsTheTestReadings(shortScale: bool)
    ensures Tokens(["this", "is", "the", "test"], shortScale) == [OtherWord, OtherWord, OtherWord, OtherWord]
  {
    NormalizeThisIsTheTestReadings0(["this", "is", "the", "test"], [OtherWord, OtherWord, OtherWord, OtherWord], shortScale);
  }

  lemma NormalizeThisIsTheTestDigitize0(ws: seq<string>, ts: seq<Token>)
    requires ws == ["this", "is", "the", "test"]
    requires ts == [OtherWord, OtherWord, OtherWord, OtherWord]
    ensures Digitize(ws, ts, None, None) == [Plain("this"), Plain("is"), Plain("the"), Plain("test")]
  {
    NormalizeThisIsTheTestDigitize1(ws[1..], ts[1..]);
  }

  lemma NormalizeThisIsTheTestDigitize1(ws: seq<string>, ts: seq<Token>)
    requires ws == ["is", "the", "test"]
    requires ts == [OtherWord, OtherWord, OtherWord]
    ensures Digitize(ws, ts, None, None) == [Plain("is"), Plain("the"), Plain("test")]
  {
    NormalizeThisIsTheTestDigitize2(ws[1..], ts[1..]);
  }

  lemma NormalizeThisIsTheTestDigitize2(ws: seq<string>, ts: seq<Token>)
    requires ws == ["the", "test"]
    requires ts == [OtherWord, OtherWord]
    ensures Digitize(ws, ts, None, None) == [Plain("the"), Plain("test")]
  {
    NormalizeThisIsTheTestDigitize3(ws[1..], ts[1..]);
  }

  lemma NormalizeThisIsTheTestDigitize3(ws: seq<string>, ts: seq<Token>)
    requires ws == ["test"]
    requires ts == [OtherWord]
    ensures Digitize(ws, ts, None, None) == [Plain("test")]
  {
  }

  lemma NormalizeThisIsTheTestRendered(ps: seq<Piece>)
    requires ps == [Plain("this"), Plain("is"), Plain("the"), Plain("test")]
    ensures Render(ps) == ["this", "is", "the", "test"]
  {
    forall i | 0 <= i < 4
      ensures RenderPiece(ps[i]) == ["this", "is", "the", "test"][i]
    {
    }
  }

  lemma NormalizeThisIsTheTestDropped0(ws: seq<string>)
    requires ws == ["this", "is", "the", "test"]
    ensures DropArticles(ws) == ["this", "is", "test"]
  {
    NormalizeThisIsTheTestDropped1(ws[1..]);
  }

  lemma NormalizeThisIsTheTestDropped1(ws: seq<string>)
    requires ws == ["is", "the", "test"]
    ensures DropArticles(ws) == ["is", "test"]
  {
    NormalizeThisIsTheTestDropped2(ws[1..]);
  }

  lemma NormalizeThisIsTheTestDropped2(ws: seq<string>)
    requires ws == ["the", "test"]
    ensures DropArticles(ws) == ["test"]
  {
    NormalizeThisIsTheTestDropped3(ws[1..]);
  }

  lemma NormalizeThisIsTheTestDropped3(ws: seq<string>)
    requires ws == ["test"]
    ensures DropArticles(ws) == ["test"]
  {
  }

  lemma NormalizeThisIsTheTestJoined1(ws: seq<string>)
    requires ws == ["this"]
    ensures Unwords(ws) == "this"
  {
  }

  lemma NormalizeThisIsTheTestJoined2(ws: seq<string>)
    requires ws == ["this", "is"]
    ensures Unwords(ws) == "this is"
  {
    NormalizeThisIsTheTestJoined1(ws[..1]);
    JoinWithAppend(" ", ws[..1], ws[1]);
    assert ws == ws[..1] + [ws[1]];
    assert "this" + " " + "is" == "this is";
  }

  lemma NormalizeThisIsTheTestJoined3(ws: seq<string>)
    requires ws == ["this", "is", "test"]
    ensures Unwords(ws) == "this is test"
  {
    NormalizeThisIsTheTestJoined2(ws[..2]);
    JoinWithAppend(" ", ws[..2], ws[2]);
    assert ws == ws[..2] + [ws[2]];
    assert "this is" + " " + "test" == "this is test";
  }

  lemma NormalizeThisIsTheTestDigitWords(ws: seq<string>)
    requires ws == ["this", "is", "the", "test"]
    ensures DigitWords(ws) == ["this", "is", "the", "test"]
  {
    NormalizeThisIsTheTestLowered(ws);
    NormalizeThisIsTheTestReadings(true);
    NormalizeThisIsTheTestDigitize0(ws, [OtherWord, OtherWord, OtherWord, OtherWord]);
    NormalizeThisIsTheTestRendered([Plain("this"), Plain("is"), Plain("the"), Plain("test")]);
  }

  /** test/test_parse.py:68-69 */
  lemma NormalizeThisIsTheTest()
    ensures Normalize.Normalize("this is the test", true) == "this is test"
  {
    NormalizeThisIsTheTestExpandedWords("this is the test");
    NormalizeThisIsTheTestDigitWords(["this", "is", "the", "test"]);
    NormalizeThisIsTheTestDropped0(["this", "is", "the", "test"]);
    NormalizeThisIsTheTestJoined3(["this", "is", "test"]);
    NormalizeByWords("this is the test", true);
  }

  lemma NormalizeAndAnotherTestLowered(ws: seq<string>)
    requires ws == ["and", "another", "test"]
    ensures MapLower(ws) == ["and", "another", "test"]
  {
    forall i | 0 <= i < 3
      ensures Lower(ws[i]) == ["and", "another", "test"][i]
    {
    }
  }

  lemma NormalizeAndAnotherTestReadings0(ws: seq<string>, ts: seq<Token>, shortScale: bool)
    requires ws == ["and", "another", "test"]
    requires ts == [AndWord, OtherWord, OtherWord]
    ensures Tokens(ws, shortScale) == ts
  {
    forall i | 0 <= i < 3
      ensures Classify(ws[i], shortScale) == ts[i]
    {
      if i == 0 { ReadAnd(shortScale); }
      else if i == 1 { ReadAnother(shortScale); }
      else if i == 2 { ReadTest(shortScale); }
    }
    TokensOfReadings(ws, ts, shortScale);
  }

  lemma NormalizeAndAnotherTestReadings(shortScale: bool)
    ensures Tokens(["and", "another", "test"], shortScale) == [AndWord, OtherWord, OtherWord]
  {
    NormalizeAndAnotherTestReadings0(["and", "another", "test"], [AndWord, OtherWord, OtherWord], shortScale);
  }

  lemma NormalizeAndAnotherTestDigitize0(ws: seq<string>, ts: seq<Token>)
    requires ws == ["and", "another", "test"]
    requires ts == [AndWord, OtherWord, OtherWord]
    ensures Digitize(ws, ts, None, None) == [Plain("and"), Plain("another"), Plain("test")]
  {
    NormalizeAndAnotherTestDigitize1(ws[1..], ts[1..]);
  }

  lemma NormalizeAndAnotherTestDigitize1(ws: seq<string>, ts: seq<Token>)
    requires ws == ["another", "test"]
    requires ts == [OtherWord, OtherWord]
    ensures Digitize(ws, ts, None, None) == [Plain("another"), Plain("test")]
  {
    NormalizeAndAnotherTestDigitize2(ws[1..], ts[1..]);
  }

  lemma NormalizeAndAnotherTestDigitize2(ws: seq<string>, ts: seq<Token>)
    requires ws == ["test"]
    requires ts == [OtherWord]
    ensures Digitize(ws, ts, None, None) == [Plain("test")]
  {
  }

  lemma NormalizeAndAnotherTestRendered(ps: seq<Piece>)
    requires ps == [Plain("and"), Plain("another"), Plain("test")]
    ensures Render(ps) == ["and", "another", "test"]
  {
    forall i | 0 <= i < 3
      ensures RenderPiece(ps[i]) == ["and", "another", "test"][i]
    {
    }
  }

  lemma NormalizeAndAnotherTestDropped0(ws: seq<string>)
    requires ws == ["and", "another", "test"]
    ensures DropArticles(ws) == ["and", "another", "test"]
  {
    NormalizeAndAnotherTestDropped1(ws[1..]);
  }

  lemma NormalizeAndAnotherTestDropped1(ws: seq<string>)
    requires ws == ["another", "test"]
    ensures DropArticles(ws) == ["another", "test"]
  {
    NormalizeAndAnotherTestDropped2(ws[1..]);
  }

  lemma NormalizeAndAnotherTestDropped2(ws: seq<string>)
    requires ws == ["test"]
    ensures DropArticles(ws) == ["test"]
  {
  }

  lemma NormalizeAndAnotherTestJoined1(ws: seq<string>)
    requires ws == ["and"]
    ensures Unwords(ws) == "and"
  {
  }

  lemma NormalizeAndAnotherTestJoined2(ws: seq<string>)
    requires ws == ["and", "another"]
    ensures Unwords(ws) == "and another"
  {
    NormalizeAndAnotherTestJoined1(ws[..1]);
    JoinWithAppend(" ", ws[..1], ws[1]);
    assert ws == ws[..1] + [ws[1]];
    assert "and" + " " + "another" == "and another";
  }

  lemma NormalizeAndAnotherTestJoined3(ws: seq<string>)
    requires ws == ["and", "another", "test"]
    ensures Unwords(ws) == "and another test"
  {
    NormalizeAndAnotherTestJoined2(ws[..2]);
    JoinWithAppend(" ", ws[..2], ws[2]);
    assert ws == ws[..2] + [ws[2]];
    assert "and another" + " " + "test" == "and another test";
  }

  lemma NormalizeAndAnotherTestDigitWords(ws: seq<string>)
    requires ws == ["and", "another", "test"]
    ensures DigitWords(ws) == ["and", "another", "test"]
  {
    NormalizeAndAnotherTestLowered(ws);
    NormalizeAndAnotherTestReadings(true);
    NormalizeAndAnotherTestDigitize0(ws, [AndWord, OtherWord, OtherWord]);
    NormalizeAndAnotherTestRendered([Plain("and"), Plain("another"), Plain("test")]);
  }

  /** test/test_parse.py:70-71 */
  lemma NormalizeAndAnotherTest()
    ensures Normalize.Normalize("and another test", true) == "and another test"
  {
    NormalizeAndAnotherTestExpandedWords("and another test");
    NormalizeAndAnotherTestDigitWords(["and", "another", "test"]);
    NormalizeAndAnotherTestDropped0(["and", "another", "test"]);
    NormalizeAndAnotherTestJoined3(["and", "another", "test"]);
    NormalizeByWords("and another test", true);
  }

  lemma NormalizeThisIsAnExtraLowered(ws: seq<string>)
    requires ws == ["this", "is", "an", "extra", "test"]
    ensures MapLower(ws) == ["this", "is", "an", "extra", "test"]
  {
    forall i | 0 <= i < 5
      ensures Lower(ws[i]) == ["this", "is", "an", "extra", "test"][i]
    {
    }
  }

  lemma NormalizeThisIsAnExtraReadings0(ws: seq<string>, ts: seq<Token>, shortScale: bool)
    requires ws == ["this", "is", "an", "extra"]
    requires ts == [OtherWord, OtherWord, OtherWord, OtherWord]
    ensures Tokens(ws, shortScale) == ts
  {
    forall i | 0 <= i < 4
      ensures Classify(ws[i], shortScale) == ts[i]
    {
      if i == 0 { ReadThis(shortScale); }
      else if i == 1 { ReadIs(shortScale); }
      else if i == 2 { ReadAn(shortScale); }
      else if i == 3 { ReadExtra(shortScale); }
    }
    TokensOfReadings(ws, ts, shortScale);
  }

  lemma NormalizeThisIsAnExtraReadings1(ws: seq<string>, ts: seq<Token>, shortScale: bool)
    requires ws == ["test"]
    requires ts == [OtherWord]
    ensures Tokens(ws, shortScale) == ts
  {
    forall i | 0 <= i < 1
      ensures Classify(ws[i], shortScale) == ts[i]
    {
      if i == 0 { ReadTest(shortScale); }
    }
    TokensOfReadings(ws, ts, shortScale);
  }

  lemma NormalizeThisIsAnExtraWordChunks()
    ensures ["this", "is", "an", "extra", "test"] == ["this", "is", "an", "extra"] + ["test"]
  {
  }

  lemma NormalizeThisIsAnExtraTokenChunks(shortScale: bool)
    ensures [OtherWord, OtherWord, OtherWord, OtherWord, OtherWord] == [OtherWord, OtherWord, OtherWord, OtherWord] + [OtherWord]
  {
  }

  lemma NormalizeThisIsAnExtraReadings(shortScale: bool)
    ensures Tokens(["this", "is", "an", "extra", "test"], shortScale) == [OtherWord, OtherWord, OtherWord, OtherWord, OtherWord]
  {
    var w0, w1 := ["this", "is", "an", "extra"], ["test"];
    var t0, t1 := [OtherWord, OtherWord, OtherWord, OtherWord], [OtherWord];
    NormalizeThisIsAnExtraReadings0(w0, t0, shortScale);
    NormalizeThisIsAnExtraReadings1(w1, t1, shortScale);
    TokensJoin(w0, w1, t0, t1, shortScale);
    NormalizeThisIsAnExtraWordChunks();
    NormalizeThisIsAnExtraTokenChunks(shortScale);
  }

  lemma NormalizeThisIsAnExtraDigitize0(ws: seq<string>, ts: seq<Token>)
    requires ws == ["this", "is", "an", "extra", "test"]
    requires ts == [OtherWord, OtherWord, OtherWord, OtherWord, OtherWord]
    ensures Digitize(ws, ts, None, None) == [Plain("this"), Plain("is"), Plain("an"), Plain("extra"), Plain("test")]
  {
    NormalizeThisIsAnExtraDigitize1(ws[1..], ts[1..]);
  }

  lemma NormalizeThisIsAnExtraDigitize1(ws: seq<string>, ts: seq<Token>)
    requires ws == ["is", "an", "extra", "test"]
    requires ts == [OtherWord, OtherWord, OtherWord, OtherWord]
    ensures Digitize(ws, ts, None, None) == [Plain("is"), Plain("an"), Plain("extra"), Plain("test")]
  {
    NormalizeThisIsAnExtraDigitize2(ws[1..], ts[1..]);
  }

  lemma NormalizeThisIsAnExtraDigitize2(ws: seq<string>, ts: seq<Token>)
    requires ws == ["an", "extra", "test"]
    requires ts == [OtherWord, OtherWord, OtherWord]
    ensures Digitize(ws, ts, None, None) == [Plain("an"), Plain("extra"), Plain("test")]
  {
    NormalizeThisIsAnExtraDigitize3(ws[1..], ts[1..]);
  }

  lemma NormalizeThisIsAnExtraDigitize3(ws: seq<string>, ts: seq<Token>)
    requires ws == ["extra", "test"]
    requires ts == [OtherWord, OtherWord]
    ensures Digitize(ws, ts, None, None) == [Plain("extra"), Plain("test")]
  {
    NormalizeThisIsAnExtraDigitize4(ws[1..], ts[1..]);
  }

  lemma NormalizeThisIsAnExtraDigitize4(ws: seq<string>, ts: seq<Token>)
    requires ws == ["test"]
    requires ts == [OtherWord]
    ensures Digitize(ws, ts, None, None) == [Plain("test")]
  {
  }

  lemma NormalizeThisIsAnExtraRendered(ps: seq<Piece>)
    requires ps == [Plain("this"), Plain("is"), Plain("an"), Plain("extra"), Plain("test")]
    ensures Render(ps) == ["this", "is", "an", "extra", "test"]
  {
    forall i | 0 <= i < 5
      ensures RenderPiece(ps[i]) == ["this", "is", "an", "extra", "test"][i]
    {
    }
  }

  lemma NormalizeThisIsAnExtraJoined1(ws: seq<string>)
    requires ws == ["this"]
    ensures Unwords(ws) == "this"
  {
  }

  lemma NormalizeThisIsAnExtraJoined2(ws: seq<string>)
    requires ws == ["this", "is"]
    ensures Unwords(ws) == "this is"
  {
    NormalizeThisIsAnExtraJoined1(ws[..1]);
    JoinWithAppend(" ", ws[..1], ws[1]);
    assert ws == ws[..1] + [ws[1]];
    assert "this" + " " + "is" == "this is";
  }

  lemma NormalizeThisIsAnExtraJoined3(ws: seq<string>)
    requires ws == ["this", "is", "an"]
    ensures Unwords(ws) == "this is an"
  {
    NormalizeThisIsAnExtraJoined2(ws[..2]);
    JoinWithAppend(" ", ws[..2], ws[2]);
    assert ws == ws[..2] + [ws[2]];
    assert "this is" + " " + "an" == "this is an";
  }

  lemma NormalizeThisIsAnExtraJoined4(ws: seq<string>)
    requires ws == ["this", "is", "an", "extra"]
    ensures Unwords(ws) == "this is an extra"
  {
    NormalizeThisIsAnExtraJoined3(ws[..3]);
    JoinWithAppend(" ", ws[..3], ws[3]);
    assert ws == ws[..3] + [ws[3]];
    assert "this is an" + " " + "extra" == "this is an extra";
  }

  lemma NormalizeThisIsAnExtraJoined5(ws: seq<string>)
    requires ws == ["this", "is", "an", "extra", "test"]
    ensures Unwords(ws) == "this is an extra test"
  {
    NormalizeThisIsAnExtraJoined4(ws[..4]);
    JoinWithAppend(" ", ws[..4], ws[4]);
    assert ws == ws[..4] + [ws[4]];
    assert "this is an extra" + " " + "test" == "this is an extra test";
  }

  lemma NormalizeThisIsAnExtraDigitWords(ws: seq<string>)
    requires ws == ["this", "is", "an", "extra", "test"]
    ensures DigitWords(ws) == ["this", "is", "an", "extra", "test"]
  {
    NormalizeThisIsAnExtraLowered(ws);
    NormalizeThisIsAnExtraReadings(true);
    NormalizeThisIsAnExtraDigitize0(ws, [OtherWord, OtherWord, OtherWord, OtherWord, OtherWord]);
    NormalizeThisIsAnExtraRendered([Plain("this"), Plain("is"), Plain("an"), Plain("extra"), Plain("test")]);
  }

  /** test/test_parse.py:72-74 */
  lemma NormalizeThisIsAnExtra()
    ensures Normalize.Normalize("this is an extra test", false) == "this is an extra test"
  {
    NormalizeThisIsAnExtraExpandedWords("this is an extra test");
    NormalizeThisIsAnExtraDigitWords(["this", "is", "an", "extra", "test"]);
    NormalizeThisIsAnExtraJoined5(["this", "is", "an", "extra", "test"]);
    NormalizeByWords("this is an extra test", false);
  }

  lemma NormalizeRemindMeToDoLowered(ws: seq<string>)
    requires ws == ["remind", "me", "to", "do", "something", "at", "two", "to", "two"]
    ensures MapLower(ws) == ["remind", "me", "to", "do", "something", "at", "two", "to", "two"]
  {
    forall i | 0 <= i < 9
      ensures Lower(ws[i]) == ["remind", "me", "to", "do", "something", "at", "two", "to", "two"][i]
    {
    }
  }

  lemma NormalizeRemindMeToDoReadings0(ws: seq<string>, ts: seq<Token>, shortScale: bool)
    requires ws == ["remind", "me", "to", "do"]
    requires ts == [OtherWord, OtherWord, OtherWord, OtherWord]
    ensures Tokens(ws, shortScale) == ts
  {
    forall i | 0 <= i < 4
      ensures Classify(ws[i], shortScale) == ts[i]
    {
      if i == 0 { ReadRemind(shortScale); }
      else if i == 1 { ReadMe(shortScale); }
      else if i == 2 { ReadTo(shortScale); }
      else if i == 3 { ReadDo(shortScale); }
    }
    TokensOfReadings(ws, ts, shortScale);
  }

  lemma NormalizeRemindMeToDoReadings1(ws: seq<string>, ts: seq<Token>, shortScale: bool)
    requires ws == ["something", "at", "two", "to"]
    requires ts == [OtherWord, OtherWord, UnitWord(2), OtherWord]
    ensures Tokens(ws, shortScale) == ts
  {
    forall i | 0 <= i < 4
      ensures Classify(ws[i], shortScale) == ts[i]
    {
      if i == 0 { ReadSomething(shortScale); }
      else if i == 1 { ReadAt(shortScale); }
      else if i == 2 { ReadTwo(shortScale); }
      else if i == 3 { ReadTo(shortScale); }
    }
    TokensOfReadings(ws, ts, shortScale);
  }

  lemma NormalizeRemindMeToDoReadings2(ws: seq<string>, ts: seq<Token>, shortScale: bool)
    requires ws == ["two"]
    requires ts == [UnitWord(2)]
    ensures Tokens(ws, shortScale) == ts
  {
    forall i | 0 <= i < 1
      ensures Classify(ws[i], shortScale) == ts[i]
    {
      if i == 0 { ReadTwo(shortScale); }
    }
    TokensOfReadings(ws, ts, shortScale);
  }

  lemma NormalizeRemindMeToDoWordChunks()
    ensures ["remind", "me", "to", "do", "something", "at", "two", "to", "two"] == ["remind", "me", "to", "do"] + ["something", "at", "two", "to"] + ["two"]
  {
  }

  lemma NormalizeRemindMeToDoTokenChunks(shortScale: bool)
    ensures [OtherWord, OtherWord, OtherWord, OtherWord, OtherWord, OtherWord, UnitWord(2), OtherWord, UnitWord(2)] == [OtherWord, OtherWord, OtherWord, OtherWord] + [OtherWord, OtherWord, UnitWord(2), OtherWord] + [UnitWord(2)]
  {
  }

  lemma NormalizeRemindMeToDoReadings(shortScale: bool)
    ensures Tokens(["remind", "me", "to", "do", "something", "at", "two", "to", "two"], shortScale) == [OtherWord, OtherWord, OtherWord, OtherWord, OtherWord, OtherWord, UnitWord(2), OtherWord, UnitWord(2)]
  {
    var w0, w1, w2 := ["remind", "me", "to", "do"], ["something", "at", "two", "to"], ["two"];
    var t0, t1, t2 := [OtherWord, OtherWord, OtherWord, OtherWord], [OtherWord, OtherWord, UnitWord(2), OtherWord], [UnitWord(2)];
    NormalizeRemindMeToDoReadings0(w0, t0, shortScale);
    NormalizeRemindMeToDoReadings1(w1, t1, shortScale);
    NormalizeRemindMeToDoReadings2(w2, t2, shortScale);
    TokensJoin(w0, w1, t0, t1, shortScale);
    TokensJoin(w0 + w1, w2, t0 + t1, t2, shortScale);
    NormalizeRemindMeToDoWordChunks();
    NormalizeRemindMeToDoTokenChunks(shortScale);
  }

  lemma NormalizeRemindMeToDoDigitize0(ws: seq<string>, ts: seq<Token>)
    requires ws == ["remind", "me", "to", "do", "something", "at", "two", "to", "two"]
    requires ts == [OtherWord, OtherWord, OtherWord, OtherWord, OtherWord, OtherWord, UnitWord(2), OtherWord, UnitWord(2)]
    ensures Digitize(ws, ts, None, None) == [Plain("remind"), Plain("me"), Plain("to"), Plain("do"), Plain("something"), Plain("at"), Number(2), Plain("to"), Number(2)]
  {
    NormalizeRemindMeToDoDigitize1(ws[1..], ts[1..]);
  }

  lemma NormalizeRemindMeToDoDigitize1(ws: seq<string>, ts: seq<Token>)
    requires ws == ["me", "to", "do", "something", "at", "two", "to", "two"]
    requires ts == [OtherWord, OtherWord, OtherWord, OtherWord, OtherWord, UnitWord(2), OtherWord, UnitWord(2)]
    ensures Digitize(ws, ts, None, None) == [Plain("me"), Plain("to"), Plain("do"), Plain("something"), Plain("at"), Number(2), Plain("to"), Number(2)]
  {
    NormalizeRemindMeToDoDigitize2(ws[1..], ts[1..]);
  }

  lemma NormalizeRemindMeToDoDigitize2(ws: seq<string>, ts: seq<Token>)
    requires ws == ["to", "do", "something", "at", "two", "to", "two"]
    requires ts == [OtherWord, OtherWord, OtherWord, OtherWord, UnitWord(2), OtherWord, UnitWord(2)]
    ensures Digitize(ws, ts, None, None) == [Plain("to"), Plain("do"), Plain("something"), Plain("at"), Number(2), Plain("to"), Number(2)]
  {
    NormalizeRemindMeToDoDigitize3(ws[1..], ts[1..]);
  }

  lemma NormalizeRemindMeToDoDigitize3(ws: seq<string>, ts: seq<Token>)
    requires ws == ["do", "something", "at", "two", "to", "two"]
    requires ts == [OtherWord, OtherWord, OtherWord, UnitWord(2), OtherWord, UnitWord(2)]
    ensures Digitize(ws, ts, None, None) == [Plain("do"), Plain("something"), Plain("at"), Number(2), Plain("to"), Number(2)]
  {
    NormalizeRemindMeToDoDigitize4(ws[1..], ts[1..]);
  }

  lemma NormalizeRemindMeToDoDigitize4(ws: seq<string>, ts: seq<Token>)
    requires ws == ["something", "at", "two", "to", "two"]
    requires ts == [OtherWord, OtherWord, UnitWord(2), OtherWord, UnitWord(2)]
    ensures Digitize(ws, ts, None, None) == [Plain("something"), Plain("at"), Number(2), Plain("to"), Number(2)]
  {
    NormalizeRemindMeToDoDigitize5(ws[1..], ts[1..]);
  }

  lemma NormalizeRemindMeToDoDigitize5(ws: seq<string>, ts: seq<Token>)
    requires ws == ["at", "two", "to", "two"]
    requires ts == [OtherWord, UnitWord(2), OtherWord, UnitWord(2)]
    ensures Digitize(ws, ts, None, None) == [Plain("at"), Number(2), Plain("to"), Number(2)]
  {
    NormalizeRemindMeToDoDigitize6(ws[1..], ts[1..]);
  }

  lemma NormalizeRemindMeToDoDigitize6(ws: seq<string>, ts: seq<Token>)
    requires ws == ["two", "to", "two"]
    requires ts == [UnitWord(2), OtherWord, UnitWord(2)]
    ensures Digitize(ws, ts, None, None) == [Number(2), Plain("to"), Number(2)]
  {
    NormalizeRemindMeToDoDigitize7(ws[1..], ts[1..]);
  }

  lemma NormalizeRemindMeToDoDigitize7(ws: seq<string>, ts: seq<Token>)
    requires ws == ["to", "two"]
    requires ts == [OtherWord, UnitWord(2)]
    ensures Digitize(ws, ts, Some(Run(0, 2, UnitWord(2), false)), None) == [Number(2), Plain("to"), Number(2)]
  {
    NormalizeRemindMeToDoDigitize8(ws[1..], ts[1..]);
  }

  lemma NormalizeRemindMeToDoDigitize8(ws: seq<string>, ts: seq<Token>)
    requires ws == ["two"]
    requires ts == [UnitWord(2)]
    ensures Digitize(ws, ts, None, None) == [Number(2)]
  {
  }

  lemma NormalizeRemindMeToDoRendered(ps: seq<Piece>)
    requires ps == [Plain("remind"), Plain("me"), Plain("to"), Plain("do"), Plain("something"), Plain("at"), Number(2), Plain("to"), Number(2)]
    ensures Render(ps) == ["remind", "me", "to", "do", "something", "at", "2", "to", "2"]
  {
    forall i | 0 <= i < 9
      ensures RenderPiece(ps[i]) == ["remind", "me", "to", "do", "something", "at", "2", "to", "2"][i]
    {
    }
  }

  lemma NormalizeRemindMeToDoDropped0(ws: seq<string>)
    requires ws == ["remind", "me", "to", "do", "something", "at", "2", "to", "2"]
    ensures DropArticles(ws) == ["remind", "me", "to", "do", "something", "at", "2", "to", "2"]
  {
    NormalizeRemindMeToDoDropped1(ws[1..]);
  }

  lemma NormalizeRemindMeToDoDropped1(ws: seq<string>)
    requires ws == ["me", "to", "do", "something", "at", "2", "to", "2"]
    ensures DropArticles(ws) == ["me", "to", "do", "something", "at", "2", "to", "2"]
  {
    NormalizeRemindMeToDoDropped2(ws[1..]);
  }

  lemma NormalizeRemindMeToDoDropped2(ws: seq<string>)
    requires ws == ["to", "do", "something", "at", "2", "to", "2"]
    ensures DropArticles(ws) == ["to", "do", "something", "at", "2", "to", "2"]
  {
    NormalizeRemindMeToDoDropped3(ws[1..]);
  }

  lemma NormalizeRemindMeToDoDropped3(ws: seq<string>)
    requires ws == ["do", "something", "at", "2", "to", "2"]
    ensures DropArticles(ws) == ["do", "something", "at", "2", "to", "2"]
  {
    NormalizeRemindMeToDoDropped4(ws[1..]);
  }

  lemma NormalizeRemindMeToDoDropped4(ws: seq<string>)
    requires ws == ["something", "at", "2", "to", "2"]
    ensures DropArticles(ws) == ["something", "at", "2", "to", "2"]
  {
    NormalizeRemindMeToDoDropped5(ws[1..]);
  }

  lemma NormalizeRemindMeToDoDropped5(ws: seq<string>)
    requires ws == ["at", "2", "to", "2"]
    ensures DropArticles(ws) == ["at", "2", "to", "2"]
  {
    NormalizeRemindMeToDoDropped6(ws[1..]);
  }

  lemma NormalizeRemindMeToDoDropped6(ws: seq<string>)
    requires ws == ["2", "to", "2"]
    ensures DropArticles(ws) == ["2", "to", "2"]
  {
    NormalizeRemindMeToDoDropped7(ws[1..]);
  }

  lemma NormalizeRemindMeToDoDropped7(ws: seq<string>)
    requires ws == ["to", "2"]
    ensures DropArticles(ws) == ["to", "2"]
  {
    NormalizeRemindMeToDoDropped8(ws[1..]);
  }

  lemma NormalizeRemindMeToDoDropped8(ws: seq<string>)
    requires ws == ["2"]
    ensures DropArticles(ws) == ["2"]
  {
  }

  lemma NormalizeRemindMeToDoJoined1(ws: seq<string>)
    requires ws == ["remind"]
    ensures Unwords(ws) == "remind"
  {
  }

  lemma NormalizeRemindMeToDoJoined2(ws: seq<string>)
    requires ws == ["remind", "me"]
    ensures Unwords(ws) == "remind me"
  {
    NormalizeRemindMeToDoJoined1(ws[..1]);
    JoinWithAppend(" ", ws[..1], ws[1]);
    assert ws == ws[..1] + [ws[1]];
    assert "remind" + " " + "me" == "remind me";
  }

  lemma NormalizeRemindMeToDoJoined3(ws: seq<string>)
    requires ws == ["remind", "me", "to"]
    ensures Unwords(ws) == "remind me to"
  {
    NormalizeRemindMeToDoJoined2(ws[..2]);
    JoinWithAppend(" ", ws[..2], ws[2]);
    assert ws == ws[..2] + [ws[2]];
    assert "remind me" + " " + "to" == "remind me to";
  }

  lemma NormalizeRemindMeToDoJoined4(ws: seq<string>)
    requires ws == ["remind", "me", "to", "do"]
    ensures Unwords(ws) == "remind me to do"
  {
    NormalizeRemindMeToDoJoined3(ws[..3]);
    JoinWithAppend(" ", ws[..3], ws[3]);
    assert ws == ws[..3] + [ws[3]];
    assert "remind me to" + " " + "do" == "remind me to do";
  }

  lemma NormalizeRemindMeToDoJoined5(ws: seq<string>)
    requires ws == ["remind", "me", "to", "do", "something"]
    ensures Unwords(ws) == "remind me to do something"
  {
    NormalizeRemindMeToDoJoined4(ws[..4]);
    JoinWithAppend(" ", ws[..4], ws[4]);
    assert ws == ws[..4] + [ws[4]];
    assert "remind me to do" + " " + "something" == "remind me to do something";
  }

  lemma NormalizeRemindMeToDoJoined6(ws: seq<string>)
    requires ws == ["remind", "me", "to", "do", "something", "at"]
    ensures Unwords(ws) == "remind me to do something at"
  {
    NormalizeRemindMeToDoJoined5(ws[..5]);
    JoinWithAppend(" ", ws[..5], ws[5]);
    assert ws == ws[..5] + [ws[5]];
    assert "remind me to do something" + " " + "at" == "remind me to do something at";
  }

  lemma NormalizeRemindMeToDoJoined7(ws: seq<string>)
    requires ws == ["remind", "me", "to", "do", "something", "at", "2"]
    ensures Unwords(ws) == "remind me to do something at 2"
  {
    NormalizeRemindMeToDoJoined6(ws[..6]);
    JoinWithAppend(" ", ws[..6], ws[6]);
    assert ws == ws[..6] + [ws[6]];
    assert "remind me to do something at" + " " + "2" == "remind me to do something at 2";
  }

  lemma NormalizeRemindMeToDoJoined8(ws: seq<string>)
    requires ws == ["remind", "me", "to", "do", "something", "at", "2", "to"]
    ensures Unwords(ws) == "remind me to do something at 2 to"
  {
    NormalizeRemindMeToDoJoined7(ws[..7]);
    JoinWithAppend(" ", ws[..7], ws[7]);
    assert ws == ws[..7] + [ws[7]];
    assert "remind me to do something at 2" + " " + "to" == "remind me to do something at 2 to";
  }

  lemma NormalizeRemindMeToDoJoined9(ws: seq<string>)
    requires ws == ["remind", "me", "to", "do", "something", "at", "2", "to", "2"]
    ensures Unwords(ws) == "remind me to do something at 2 to 2"
  {
    NormalizeRemindMeToDoJoined8(ws[..8]);
    JoinWithAppend(" ", ws[..8], ws[8]);
    assert ws == ws[..8] + [ws[8]];
    assert "remind me to do something at 2 to" + " " + "2" == "remind me to do something at 2 to 2";
  }

  lemma NormalizeRemindMeToDoDigitWords(ws: seq<string>)
    requires ws == ["remind", "me", "to", "do", "something", "at", "two", "to", "two"]
    ensures DigitWords(ws) == ["remind", "me", "to", "do", "something", "at", "2", "to", "2"]
  {
    NormalizeRemindMeToDoLowered(ws);
    NormalizeRemindMeToDoReadings(true);
    NormalizeRemindMeToDoDigitize0(ws, [OtherWord, OtherWord, OtherWord, OtherWord, OtherWord, OtherWord, UnitWord(2), OtherWord, UnitWord(2)]);
    NormalizeRemindMeToDoRendered([Plain("remind"), Plain("me"), Plain("to"), Plain("do"), Plain("something"), Plain("at"), Number(2), Plain("to"), Number(2)]);
  }

  /** test/test_parse.py:810-811 */
  lemma NormalizeRemindMeToDo()
    ensures Normalize.Normalize("remind me to do something at two to two", true) == "remind me to do something at 2 to 2"
  {
    NormalizeRemindMeToDoExpandedWords("remind me to do something at two to two");
    NormalizeRemindMeToDoDigitWords(["remind", "me", "to", "do", "something", "at", "two", "to", "two"]);
    NormalizeRemindMeToDoDropped0(["remind", "me", "to", "do", "something", "at", "2", "to", "2"]);
    NormalizeRemindMeToDoJoined9(["remind", "me", "to", "do", "something", "at", "2", "to", "2"]);
    NormalizeByWords("remind me to do something at two to two", true);
  }

  lemma NormalizeWhatTimeWillItLowered(ws: seq<string>)
    requires ws == ["what", "time", "will", "it", "be", "in", "two", "minutes"]
    ensures MapLower(ws) == ["what", "time", "will", "it", "be", "in", "two", "minutes"]
  {
    forall i | 0 <= i < 8
      ensures Lower(ws[i]) == ["what", "time", "will", "it", "be", "in", "two", "minutes"][i]
    {
    }
  }

  lemma NormalizeWhatTimeWillItReadings0(ws: seq<string>, ts: seq<Token>, shortScale: bool)
    requires ws == ["what", "time", "will", "it"]
    requires ts == [OtherWord, OtherWord, OtherWord, OtherWord]
    ensures Tokens(ws, shortScale) == ts
  {
    forall i | 0 <= i < 4
      ensures Classify(ws[i], shortScale) == ts[i]
    {
      if i == 0 { ReadWhat(shortScale); }
      else if i == 1 { ReadTime(shortScale); }
      else if i == 2 { ReadWill(shortScale); }
      else if i == 3 { ReadIt(shortScale); }
    }
    TokensOfReadings(ws, ts, shortScale);
  }

  lemma NormalizeWhatTimeWillItReadings1(ws: seq<string>, ts: seq<Token>, shortScale: bool)
    requires ws == ["be", "in", "two", "minutes"]
    requires ts == [OtherWord, OtherWord, UnitWord(2), OtherWord]
    ensures Tokens(ws, shortScale) == ts
  {
    forall i | 0 <= i < 4
      ensures Classify(ws[i], shortScale) == ts[i]
    {
      if i == 0 { ReadBe(shortScale); }
      else if i == 1 { ReadIn(shortScale); }
      else if i == 2 { ReadTwo(shortScale); }
      else if i == 3 { ReadMinutes(shortScale); }
    }
    TokensOfReadings(ws, ts, shortScale);
  }

  lemma NormalizeWhatTimeWillItWordChunks()
    ensures ["what", "time", "will", "it", "be", "in", "two", "minutes"] == ["what", "time", "will", "it"] + ["be", "in", "two", "minutes"]
  {
  }

  lemma NormalizeWhatTimeWillItTokenChunks(shortScale: bool)
    ensures [OtherWord, OtherWord, OtherWord, OtherWord, OtherWord, OtherWord, UnitWord(2), OtherWord] == [OtherWord, OtherWord, OtherWord, OtherWord] + [OtherWord, OtherWord, UnitWord(2), OtherWord]
  {
  }

  lemma NormalizeWhatTimeWillItReadings(shortScale: bool)
    ensures Tokens(["what", "time", "will", "it", "be", "in", "two", "minutes"], shortScale) == [OtherWord, OtherWord, OtherWord, OtherWord, OtherWord, OtherWord, UnitWord(2), OtherWord]
  {
    var w0, w1 := ["what", "time", "will", "it"], ["be", "in", "two", "minutes"];
    var t0, t1 := [OtherWord, OtherWord, OtherWord, OtherWord], [OtherWord, OtherWord, UnitWord(2), OtherWord];
    NormalizeWhatTimeWillItReadings0(w0, t0, shortScale);
    NormalizeWhatTimeWillItReadings1(w1, t1, shortScale);
    TokensJoin(w0, w1, t0, t1, shortScale);
    NormalizeWhatTimeWillItWordChunks();
    NormalizeWhatTimeWillItTokenChunks(shortScale);
  }

  lemma NormalizeWhatTimeWillItDigitize0(ws: seq<string>, ts: seq<Token>)
    requires ws == ["what", "time", "will", "it", "be", "in", "two", "minutes"]
    requires ts == [OtherWord, OtherWord, OtherWord, OtherWord, OtherWord, OtherWord, UnitWord(2), OtherWord]
    ensures Digitize(ws, ts, None, None) == [Plain("what"), Plain("time"), Plain("will"), Plain("it"), Plain("be"), Plain("in"), Number(2), Plain("minutes")]
  {
    NormalizeWhatTimeWillItDigitize1(ws[1..], ts[1..]);
  }

  lemma NormalizeWhatTimeWillItDigitize1(ws: seq<string>, ts: seq<Token>)
    requires ws == ["time", "will", "it", "be", "in", "two", "minutes"]
    requires ts == [OtherWord, OtherWord, OtherWord, OtherWord, OtherWord, UnitWord(2), OtherWord]
    ensures Digitize(ws, ts, None, None) == [Plain("time"), Plain("will"), Plain("it"), Plain("be"), Plain("in"), Number(2), Plain("minutes")]
  {
    NormalizeWhatTimeWillItDigitize2(ws[1..], ts[1..]);
  }

  lemma NormalizeWhatTimeWillItDigitize2(ws: seq<string>, ts: seq<Token>)
    requires ws == ["will", "it", "be", "in", "two", "minutes"]
    requires ts == [OtherWord, OtherWord, OtherWord, OtherWord, UnitWord(2), OtherWord]
    ensures Digitize(ws, ts, None, None) == [Plain("will"), Plain("it"), Plain("be"), Plain("in"), Number(2), Plain("minutes")]
  {
    NormalizeWhatTimeWillItDigitize3(ws[1..], ts[1..]);
  }

  lemma NormalizeWhatTimeWillItDigitize3(ws: seq<string>, ts: seq<Token>)
    requires ws == ["it", "be", "in", "two", "minutes"]
    requires ts == [OtherWord, OtherWord, OtherWord, UnitWord(2), OtherWord]
    ensures Digitize(ws, ts, None, None) == [Plain("it"), Plain("be"), Plain("in"), Number(2), Plain("minutes")]
  {
    NormalizeWhatTimeWillItDigitize4(ws[1..], ts[1..]);
  }

  lemma NormalizeWhatTimeWillItDigitize4(ws: seq<string>, ts: seq<Token>)
    requires ws == ["be", "in", "two", "minutes"]
    requires ts == [OtherWord, OtherWord, UnitWord(2), OtherWord]
    ensures Digitize(ws, ts, None, None) == [Plain("be"), Plain("in"), Number(2), Plain("minutes")]
  {
    NormalizeWhatTimeWillItDigitize5(ws[1..], ts[1..]);
  }

  lemma NormalizeWhatTimeWillItDigitize5(ws: seq<string>, ts: seq<Token>)
    requires ws == ["in", "two", "minutes"]
    requires ts == [OtherWord, UnitWord(2), OtherWord]
    ensures Digitize(ws, ts, None, None) == [Plain("in"), Number(2), Plain("minutes")]
  {
    NormalizeWhatTimeWillItDigitize6(ws[1..], ts[1..]);
  }

  lemma NormalizeWhatTimeWillItDigitize6(ws: seq<string>, ts: seq<Token>)
    requires ws == ["two", "minutes"]
    requires ts == [UnitWord(2), OtherWord]
    ensures Digitize(ws, ts, None, None) == [Number(2), Plain("minutes")]
  {
    NormalizeWhatTimeWillItDigitize7(ws[1..], ts[1..]);
  }

  lemma NormalizeWhatTimeWillItDigitize7(ws: seq<string>, ts: seq<Token>)
    requires ws == ["minutes"]
    requires ts == [OtherWord]
    ensures Digitize(ws, ts, Some(Run(0, 2, UnitWord(2), false)), None) == [Number(2), Plain("minutes")]
  {
  }

  lemma NormalizeWhatTimeWillItRendered(ps: seq<Piece>)
    requires ps == [Plain("what"), Plain("time"), Plain("will"), Plain("it"), Plain("be"), Plain("in"), Number(2), Plain("minutes")]
    ensures Render(ps) == ["what", "time", "will", "it", "be", "in", "2", "minutes"]
  {
    forall i | 0 <= i < 8
      ensures RenderPiece(ps[i]) == ["what", "time", "will", "it", "be", "in", "2", "minutes"][i]
    {
    }
  }

  lemma NormalizeWhatTimeWillItDropped0(ws: seq<string>)
    requires ws == ["what", "time", "will", "it", "be", "in", "2", "minutes"]
    ensures DropArticles(ws) == ["what", "time", "will", "it", "be", "in", "2", "minutes"]
  {
    NormalizeWhatTimeWillItDropped1(ws[1..]);
  }

  lemma NormalizeWhatTimeWillItDropped1(ws: seq<string>)
    requires ws == ["time", "will", "it", "be", "in", "2", "minutes"]
    ensures DropArticles(ws) == ["time", "will", "it", "be", "in", "2", "minutes"]
  {
    NormalizeWhatTimeWillItDropped2(ws[1..]);
  }

  lemma NormalizeWhatTimeWillItDropped2(ws: seq<string>)
    requires ws == ["will", "it", "be", "in", "2", "minutes"]
    ensures DropArticles(ws) == ["will", "it", "be", "in", "2", "minutes"]
  {
    NormalizeWhatTimeWillItDropped3(ws[1..]);
  }

  lemma NormalizeWhatTimeWillItDropped3(ws: seq<string>)
    requires ws == ["it", "be", "in", "2", "minutes"]
    ensures DropArticles(ws) == ["it", "be", "in", "2", "minutes"]
  {
    NormalizeWhatTimeWillItDropped4(ws[1..]);
  }

  lemma NormalizeWhatTimeWillItDropped4(ws: seq<string>)
    requires ws == ["be", "in", "2", "minutes"]
    ensures DropArticles(ws) == ["be", "in", "2", "minutes"]
  {
    NormalizeWhatTimeWillItDropped5(ws[1..]);
  }

  lemma NormalizeWhatTimeWillItDropped5(ws: seq<string>)
    requires ws == ["in", "2", "minutes"]
    ensures DropArticles(ws) == ["in", "2", "minutes"]
  {
    NormalizeWhatTimeWillItDropped6(ws[1..]);
  }

  lemma NormalizeWhatTimeWillItDropped6(ws: seq<string>)
    requires ws == ["2", "minutes"]
    ensures DropArticles(ws) == ["2", "minutes"]
  {
    NormalizeWhatTimeWillItDropped7(ws[1..]);
  }

  lemma NormalizeWhatTimeWillItDropped7(ws: seq<string>)
    requires ws == ["minutes"]
    ensures DropArticles(ws) == ["minutes"]
  {
  }

  lemma NormalizeWhatTimeWillItJoined1(ws: seq<string>)
    requires ws == ["what"]
    ensures Unwords(ws) == "what"
  {
  }

  lemma NormalizeWhatTimeWillItJoined2(ws: seq<string>)
    requires ws == ["what", "time"]
    ensures Unwords(ws) == "what time"
  {
    NormalizeWhatTimeWillItJoined1(ws[..1]);
    JoinWithAppend(" ", ws[..1], ws[1]);
    assert ws == ws[..1] + [ws[1]];
    assert "what" + " " + "time" == "what time";
  }

  lemma NormalizeWhatTimeWillItJoined3(ws: seq<string>)
    requires ws == ["what", "time", "will"]
    ensures Unwords(ws) == "what time will"
  {
    NormalizeWhatTimeWillItJoined2(ws[..2]);
    JoinWithAppend(" ", ws[..2], ws[2]);
    assert ws == ws[..2] + [ws[2]];
    assert "what time" + " " + "will" == "what time will";
  }

  lemma NormalizeWhatTimeWillItJoined4(ws: seq<string>)
    requires ws == ["what", "time", "will", "it"]
    ensures Unwords(ws) == "what time will it"
  {
    NormalizeWhatTimeWillItJoined3(ws[..3]);
    JoinWithAppend(" ", ws[..3], ws[3]);
    assert ws == ws[..3] + [ws[3]];
    assert "what time will" + " " + "it" == "what time will it";
  }

  lemma NormalizeWhatTimeWillItJoined5(ws: seq<string>)
    requires ws == ["what", "time", "will", "it", "be"]
    ensures Unwords(ws) == "what time will it be"
  {
    NormalizeWhatTimeWillItJoined4(ws[..4]);
    JoinWithAppend(" ", ws[..4], ws[4]);
    assert ws == ws[..4] + [ws[4]];
    assert "what time will it" + " " + "be" == "what time will it be";
  }

  lemma NormalizeWhatTimeWillItJoined6(ws: seq<string>)
    requires ws == ["what", "time", "will", "it", "be", "in"]
    ensures Unwords(ws) == "what time will it be in"
  {
    NormalizeWhatTimeWillItJoined5(ws[..5]);
    JoinWithAppend(" ", ws[..5], ws[5]);
    assert ws == ws[..5] + [ws[5]];
    assert "what time will it be" + " " + "in" == "what time will it be in";
  }

  lemma NormalizeWhatTimeWillItJoined7(ws: seq<string>)
    requires ws == ["what", "time", "will", "it", "be", "in", "2"]
    ensures Unwords(ws) == "what time will it be in 2"
  {
    NormalizeWhatTimeWillItJoined6(ws[..6]);
    JoinWithAppend(" ", ws[..6], ws[6]);
    assert ws == ws[..6] + [ws[6]];
    assert "what time will it be in" + " " + "2" == "what time will it be in 2";
  }

  lemma NormalizeWhatTimeWillItJoined8(ws: seq<string>)
    requires ws == ["what", "time", "will", "it", "be", "in", "2", "minutes"]
    ensures Unwords(ws) == "what time will it be in 2 minutes"
  {
    NormalizeWhatTimeWillItJoined7(ws[..7]);
    JoinWithAppend(" ", ws[..7], ws[7]);
    assert ws == ws[..7] + [ws[7]];
    assert "what time will it be in 2" + " " + "minutes" == "what time will it be in 2 minutes";
  }

  lemma NormalizeWhatTimeWillItDigitWords(ws: seq<string>)
    requires ws == ["what", "time", "will", "it", "be", "in", "two", "minutes"]
    ensures DigitWords(ws) == ["what", "time", "will", "it", "be", "in", "2", "minutes"]
  {
    NormalizeWhatTimeWillItLowered(ws);
    NormalizeWhatTimeWillItReadings(true);
    NormalizeWhatTimeWillItDigitize0(ws, [OtherWord, OtherWord, OtherWord, OtherWord, OtherWord, OtherWord, UnitWord(2), OtherWord]);
    NormalizeWhatTimeWillItRendered([Plain("what"), Plain("time"), Plain("will"), Plain("it"), Plain("be"), Plain("in"), Number(2), Plain("minutes")]);
  }

  /** test/test_parse.py:812-813 */
  lemma NormalizeWhatTimeWillIt()
    ensures Normalize.Normalize("what time will it be in two minutes", true) == "what time will it be in 2 minutes"
  {
    NormalizeWhatTimeWillItExpandedWords("what time will it be in two minutes");
    NormalizeWhatTimeWillItDigitWords(["what", "time", "will", "it", "be", "in", "two", "minutes"]);
    NormalizeWhatTimeWillItDropped0(["what", "time", "will", "it", "be", "in", "2", "minutes"]);
    NormalizeWhatTimeWillItJoined8(["what", "time", "will", "it", "be", "in", "2", "minutes"]);
    NormalizeByWords("what time will it be in two minutes", true);
  }

  lemma NormalizeWholeHourLowered(ws: seq<string>)
    requires ws == ["whole", "hour"]
    ensures MapLower(ws) == ["whole", "hour"]
  {
    forall i | 0 <= i < 2
      ensures Lower(ws[i]) == ["whole", "hour"][i]
    {
    }
  }

  lemma NormalizeWholeHourReadings0(ws: seq<string>, ts: seq<Token>, shortScale: bool)
    requires ws == ["whole", "hour"]
    requires ts == [OtherWord, OtherWord]
    ensures Tokens(ws, shortScale) == ts
  {
    forall i | 0 <= i < 2
      ensures Classify(ws[i], shortScale) == ts[i]
    {
      if i == 0 { ReadWhole(shortScale); }
      else if i == 1 { ReadHour(shortScale); }
    }
    TokensOfReadings(ws, ts, shortScale);
  }

  lemma NormalizeWholeHourReadings(shortScale: bool)
    ensures Tokens(["whole", "hour"], shortScale) == [OtherWord, OtherWord]
  {
    NormalizeWholeHourReadings0(["whole", "hour"], [OtherWord, OtherWord], shortScale);
  }

  lemma NormalizeWholeHourDigitize0(ws: seq<string>, ts: seq<Token>)
    requires ws == ["whole", "hour"]
    requires ts == [OtherWord, OtherWord]
    ensures Digitize(ws, ts, None, None) == [Plain("whole"), Plain("hour")]
  {
    NormalizeWholeHourDigitize1(ws[1..], ts[1..]);
  }

  lemma NormalizeWholeHourDigitize1(ws: seq<string>, ts: seq<Token>)
    requires ws == ["hour"]
    requires ts == [OtherWord]
    ensures Digitize(ws, ts, None, None) == [Plain("hour")]
  {
  }

  lemma NormalizeWholeHourRendered(ps: seq<Piece>)
    requires ps == [Plain("whole"), Plain("hour")]
    ensures Render(ps) == ["whole", "hour"]
  {
    forall i | 0 <= i < 2
      ensures RenderPiece(ps[i]) == ["whole", "hour"][i]
    {
    }
  }

  lemma NormalizeWholeHourDropped0(ws: seq<string>)
    requires ws == ["whole", "hour"]
    ensures DropArticles(ws) == ["whole", "hour"]
  {
    NormalizeWholeHourDropped1(ws[1..]);
  }

  lemma NormalizeWholeHourDropped1(ws: seq<string>)
    requires ws == ["hour"]
    ensures DropArticles(ws) == ["hour"]
  {
  }

  lemma NormalizeWholeHourJoined1(ws: seq<string>)
    requires ws == ["whole"]
    ensures Unwords(ws) == "whole"
  {
  }

  lemma NormalizeWholeHourJoined2(ws: seq<string>)
    requires ws == ["whole", "hour"]
    ensures Unwords(ws) == "whole hour"
  {
    NormalizeWholeHourJoined1(ws[..1]);
    JoinWithAppend(" ", ws[..1], ws[1]);
    assert ws == ws[..1] + [ws[1]];
    assert "whole" + " " + "hour" == "whole hour";
  }

  lemma NormalizeWholeHourDigitWords(ws: seq<string>)
    requires ws == ["whole", "hour"]
    ensures DigitWords(ws) == ["whole", "hour"]
  {
    NormalizeWholeHourLowered(ws);
    NormalizeWholeHourReadings(true);
    NormalizeWholeHourDigitize0(ws, [OtherWord, OtherWord]);
    NormalizeWholeHourRendered([Plain("whole"), Plain("hour")]);
  }

  /** test/test_parse.py:841-842 */
  lemma NormalizeWholeHour()
    ensures Normalize.Normalize("whole hour", true) == "whole hour"
  {
    NormalizeWholeHourExpandedWords("whole hour");
    NormalizeWholeHourDigitWords(["whole", "hour"]);
    NormalizeWholeHourDropped0(["whole", "hour"]);
    NormalizeWholeHourJoined2(["whole", "hour"]);
    NormalizeByWords("whole hour", true);
  }

  lemma NormalizeHalfHourLowered(ws: seq<string>)
    requires ws == ["half", "hour"]
    ensures MapLower(ws) == ["half", "hour"]
  {
    forall i | 0 <= i < 2
      ensures Lower(ws[i]) == ["half", "hour"][i]
    {
    }
  }

  lemma NormalizeHalfHourReadings0(ws: seq<string>, ts: seq<Token>, shortScale: bool)
    requires ws == ["half", "hour"]
    requires ts == [OtherWord, OtherWord]
    ensures Tokens(ws, shortScale) == ts
  {
    forall i | 0 <= i < 2
      ensures Classify(ws[i], shortScale) == ts[i]
    {
      if i == 0 { ReadHalf(shortScale); }
      else if i == 1 { ReadHour(shortScale); }
    }
    TokensOfReadings(ws, ts, shortScale);
  }

  lemma NormalizeHalfHourReadings(shortScale: bool)
    ensures Tokens(["half", "hour"], shortScale) == [OtherWord, OtherWord]
  {
    NormalizeHalfHourReadings0(["half", "hour"], [OtherWord, OtherWord], shortScale);
  }

  lemma NormalizeHalfHourDigitize0(ws: seq<string>, ts: seq<Token>)
    requires ws == ["half", "hour"]
    requires ts == [OtherWord, OtherWord]
    ensures Digitize(ws, ts, None, None) == [Plain("half"), Plain("hour")]
  {
    NormalizeHalfHourDigitize1(ws[1..], ts[1..]);
  }

  lemma NormalizeHalfHourDigitize1(ws: seq<string>, ts: seq<Token>)
    requires ws == ["hour"]
    requires ts == [OtherWord]
    ensures Digitize(ws, ts, None, None) == [Plain("hour")]
  {
  }

  lemma NormalizeHalfHourRendered(ps: seq<Piece>)
    requires ps == [Plain("half"), Plain("hour")]
    ensures Render(ps) == ["half", "hour"]
  {
    forall i | 0 <= i < 2
      ensures RenderPiece(ps[i]) == ["half", "hour"][i]
    {
    }
  }

  lemma NormalizeHalfHourDropped0(ws: seq<string>)
    requires ws == ["half", "hour"]
    ensures DropArticles(ws) == ["half", "hour"]
  {
    NormalizeHalfHourDropped1(ws[1..]);
  }

  lemma NormalizeHalfHourDropped1(ws: seq<string>)
    requires ws == ["hour"]
    ensures DropArticles(ws) == ["hour"]
  {
  }

  lemma NormalizeHalfHourJoined1(ws: seq<string>)
    requires ws == ["half"]
    ensures Unwords(ws) == "half"
  {
  }

  lemma NormalizeHalfHourJoined2(ws: seq<string>)
    requires ws == ["half", "hour"]
    ensures Unwords(ws) == "half hour"
  {
    NormalizeHalfHourJoined1(ws[..1]);
    JoinWithAppend(" ", ws[..1], ws[1]);
    assert ws == ws[..1] + [ws[1]];
    assert "half" + " " + "hour" == "half hour";
  }

  lemma NormalizeHalfHourDigitWords(ws: seq<string>)
    requires ws == ["half", "hour"]
    ensures DigitWords(ws) == ["half", "hour"]
  {
    NormalizeHalfHourLowered(ws);
    NormalizeHalfHourReadings(true);
    NormalizeHalfHourDigitize0(ws, [OtherWord, OtherWord]);
    NormalizeHalfHourRendered([Plain("half"), Plain("hour")]);
  }

  /** test/test_parse.py:847-848 */
  lemma NormalizeHalfHour()
    ensures Normalize.Normalize("half hour", true) == "half hour"
  {
    NormalizeHalfHourExpandedWords("half hour");
    NormalizeHalfHourDigitWords(["half", "hour"]);
    NormalizeHalfHourDropped0(["half", "hour"]);
    NormalizeHalfHourJoined2(["half", "hour"]);
    NormalizeByWords("half hour", true);
  }

  lemma NormalizeThisIsATestAgainLowered(ws: seq<string>)
    requires ws == ["this", "is", "a", "test"]
    ensures MapLower(ws) == ["this", "is", "a", "test"]
  {
    forall i | 0 <= i < 4
      ensures Lower(ws[i]) == ["this", "is", "a", "test"][i]
    {
    }
  }

  lemma NormalizeThisIsATestAgainReadings0(ws: seq<string>, ts: seq<Token>, shortScale: bool)
    requires ws == ["this", "is", "a", "test"]
    requires ts == [OtherWord, OtherWord, OtherWord, OtherWord]
    ensures Tokens(ws, shortScale) == ts
  {
    forall i | 0 <= i < 4
      ensures Classify(ws[i], shortScale) == ts[i]
    {
      if i == 0 { ReadThis(shortScale); }
      else if i == 1 { ReadIs(shortScale); }
      else if i == 2 { ReadA(shortScale); }
      else if i == 3 { ReadTest(shortScale); }
    }
    TokensOfReadings(ws, ts, shortScale);
  }

  lemma NormalizeThisIsATestAgainReadings(shortScale: bool)
    ensures Tokens(["this", "is", "a", "test"], shortScale) == [OtherWord, OtherWord, OtherWord, OtherWord]
  {
    NormalizeThisIsATestAgainReadings0(["this", "is", "a", "test"], [OtherWord, OtherWord, OtherWord, OtherWord], shortScale);
  }

  lemma NormalizeThisIsATestAgainDigitize0(ws: seq<string>, ts: seq<Token>)
    requires ws == ["this", "is", "a", "test"]
    requires ts == [OtherWord, OtherWord, OtherWord, OtherWord]
    ensures Digitize(ws, ts, None, None) == [Plain("this"), Plain("is"), Plain("a"), Plain("test")]
  {
    NormalizeThisIsATestAgainDigitize1(ws[1..], ts[1..]);
  }

  lemma NormalizeThisIsATestAgainDigitize1(ws: seq<string>, ts: seq<Token>)
    requires ws == ["is", "a", "test"]
    requires ts == [OtherWord, OtherWord, OtherWord]
    ensures Digitize(ws, ts, None, None) == [Plain("is"), Plain("a"), Plain("test")]
  {
    NormalizeThisIsATestAgainDigitize2(ws[1..], ts[1..]);
  }

  lemma NormalizeThisIsATestAgainDigitize2(ws: seq<string>, ts: seq<Token>)
    requires ws == ["a", "test"]
    requires ts == [OtherWord, OtherWord]
    ensures Digitize(ws, ts, None, None) == [Plain("a"), Plain("test")]
  {
    NormalizeThisIsATestAgainDigitize3(ws[1..], ts[1..]);
  }

  lemma NormalizeThisIsATestAgainDigitize3(ws: seq<string>, ts: seq<Token>)
    requires ws == ["test"]
    requires ts == [OtherWord]
    ensures Digitize(ws, ts, None, None) == [Plain("test")]
  {
  }

  lemma NormalizeThisIsATestAgainRendered(ps: seq<Piece>)
    requires ps == [Plain("this"), Plain("is"), Plain("a"), Plain("test")]
    ensures Render(ps) == ["this", "is", "a", "test"]
  {
    forall i | 0 <= i < 4
      ensures RenderPiece(ps[i]) == ["this", "is", "a", "test"][i]
    {
    }
  }

  lemma NormalizeThisIsATestAgainDropped0(ws: seq<string>)
    requires ws == ["this", "is", "a", "test"]
    ensures DropArticles(ws) == ["this", "is", "test"]
  {
    NormalizeThisIsATestAgainDropped1(ws[1..]);
  }

  lemma NormalizeThisIsATestAgainDropped1(ws: seq<string>)
    requires ws == ["is", "a", "test"]
    ensures DropArticles(ws) == ["is", "test"]
  {
    NormalizeThisIsATestAgainDropped2(ws[1..]);
  }

  lemma NormalizeThisIsATestAgainDropped2(ws: seq<string>)
    requires ws == ["a", "test"]
    ensures DropArticles(ws) == ["test"]
  {
    NormalizeThisIsATestAgainDropped3(ws[1..]);
  }

  lemma NormalizeThisIsATestAgainDropped3(ws: seq<string>)
    requires ws == ["test"]
    ensures DropArticles(ws) == ["test"]
  {
  }

  lemma NormalizeThisIsATestAgainJoined1(ws: seq<string>)
    requires ws == ["this"]
    ensures Unwords(ws) == "this"
  {
  }

  lemma NormalizeThisIsATestAgainJoined2(ws: seq<string>)
    requires ws == ["this", "is"]
    ensures Unwords(ws) == "this is"
  {
    NormalizeThisIsATestAgainJoined1(ws[..1]);
    JoinWithAppend(" ", ws[..1], ws[1]);
    assert ws == ws[..1] + [ws[1]];
    assert "this" + " " + "is" == "this is";
  }

  lemma NormalizeThisIsATestAgainJoined3(ws: seq<string>)
    requires ws == ["this", "is", "test"]
    ensures Unwords(ws) == "this is test"
  {
    NormalizeThisIsATestAgainJoined2(ws[..2]);
    JoinWithAppend(" ", ws[..2], ws[2]);
    assert ws == ws[..2] + [ws[2]];
    assert "this is" + " " + "test" == "this is test";
  }

  lemma NormalizeThisIsATestAgainDigitWords(ws: seq<string>)
    requires ws == ["this", "is", "a", "test"]
    ensures DigitWords(ws) == ["this", "is", "a", "test"]
  {
    NormalizeThisIsATestAgainLowered(ws);
    NormalizeThisIsATestAgainReadings(true);
    NormalizeThisIsATestAgainDigitize0(ws, [OtherWord, OtherWord, OtherWord, OtherWord]);
    NormalizeThisIsATestAgainRendered([Plain("this"), Plain("is"), Plain("a"), Plain("test")]);
  }

  /** test/test_parse.py:863-864 */
  lemma NormalizeThisIsATestAgain()
    ensures Normalize.Normalize("  this   is  a    test", true) == "this is test"
  {
    NormalizeThisIsATestAgainExpandedWords("  this   is  a    test");
    NormalizeThisIsATestAgainDigitWords(["this", "is", "a", "test"]);
    NormalizeThisIsATestAgainDropped0(["this", "is", "a", "test"]);
    NormalizeThisIsATestAgainJoined3(["this", "is", "test"]);
    NormalizeByWords("  this   is  a    test", true);
  }

  lemma NormalizeThisIsATestAgainAgainLowered(ws: seq<string>)
    requires ws == ["this", "is", "a", "test"]
    ensures MapLower(ws) == ["this", "is", "a", "test"]
  {
    forall i | 0 <= i < 4
      ensures Lower(ws[i]) == ["this", "is", "a", "test"][i]
    {
    }
  }

  lemma NormalizeThisIsATestAgainAgainReadings0(ws: seq<string>, ts: seq<Token>, shortScale: bool)
    requires ws == ["this", "is", "a", "test"]
    requires ts == [OtherWord, OtherWord, OtherWord, OtherWord]
    ensures Tokens(ws, shortScale) == ts
  {
    forall i | 0 <= i < 4
      ensures Classify(ws[i], shortScale) == ts[i]
    {
      if i == 0 { ReadThis(shortScale); }
      else if i == 1 { ReadIs(shortScale); }
      else if i == 2 { ReadA(shortScale); }
      else if i == 3 { ReadTest(shortScale); }
    }
    TokensOfReadings(ws, ts, shortScale);
  }

  lemma NormalizeThisIsATestAgainAgainReadings(shortScale: bool)
    ensures Tokens(["this", "is", "a", "test"], shortScale) == [OtherWord, OtherWord, OtherWord, OtherWord]
  {
    NormalizeThisIsATestAgainAgainReadings0(["this", "is", "a", "test"], [OtherWord, OtherWord, OtherWord, OtherWord], shortScale);
  }

  lemma NormalizeThisIsATestAgainAgainDigitize0(ws: seq<string>, ts: seq<Token>)
    requires ws == ["this", "is", "a", "test"]
    requires ts == [OtherWord, OtherWord, OtherWord, OtherWord]
    ensures Digitize(ws, ts, None, None) == [Plain("this"), Plain("is"), Plain("a"), Plain("test")]
  {
    NormalizeThisIsATestAgainAgainDigitize1(ws[1..], ts[1..]);
  }

  lemma NormalizeThisIsATestAgainAgainDigitize1(ws: seq<string>, ts: seq<Token>)
    requires ws == ["is", "a", "test"]
    requires ts == [OtherWord, OtherWord, OtherWord]
    ensures Digitize(ws, ts, None, None) == [Plain("is"), Plain("a"), Plain("test")]
  {
    NormalizeThisIsATestAgainAgainDigitize2(ws[1..], ts[1..]);
  }

  lemma NormalizeThisIsATestAgainAgainDigitize2(ws: seq<string>, ts: seq<Token>)
    requires ws == ["a", "test"]
    requires ts == [OtherWord, OtherWord]
    ensures Digitize(ws, ts, None, None) == [Plain("a"), Plain("test")]
  {
    NormalizeThisIsATestAgainAgainDigitize3(ws[1..], ts[1..]);
  }

  lemma NormalizeThisIsATestAgainAgainDigitize3(ws: seq<string>, ts: seq<Token>)
    requires ws == ["test"]
    requires ts == [OtherWord]
    ensures Digitize(ws, ts, None, None) == [Plain("test")]
  {
  }

  lemma NormalizeThisIsATestAgainAgainRendered(ps: seq<Piece>)
    requires ps == [Plain("this"), Plain("is"), Plain("a"), Plain("test")]
    ensures Render(ps) == ["this", "is", "a", "test"]
  {
    forall i | 0 <= i < 4
      ensures RenderPiece(ps[i]) == ["this", "is", "a", "test"][i]
    {
    }
  }

  lemma NormalizeThisIsATestAgainAgainDropped0(ws: seq<string>)
    requires ws == ["this", "is", "a", "test"]
    ensures DropArticles(ws) == ["this", "is", "test"]
  {
    NormalizeThisIsATestAgainAgainDropped1(ws[1..]);
  }

  lemma NormalizeThisIsATestAgainAgainDropped1(ws: seq<string>)
    requires ws == ["is", "a", "test"]
    ensures DropArticles(ws) == ["is", "test"]
  {
    NormalizeThisIsATestAgainAgainDropped2(ws[1..]);
  }

  lemma NormalizeThisIsATestAgainAgainDropped2(ws: seq<string>)
    requires ws == ["a", "test"]
    ensures DropArticles(ws) == ["test"]
  {
    NormalizeThisIsATestAgainAgainDropped3(ws[1..]);
  }

  lemma NormalizeThisIsATestAgainAgainDropped3(ws: seq<string>)
    requires ws == ["test"]
    ensures DropArticles(ws) == ["test"]
  {
  }

  lemma NormalizeThisIsATestAgainAgainJoined1(ws: seq<string>)
    requires ws == ["this"]
    ensures Unwords(ws) == "this"
  {
  }

  lemma NormalizeThisIsATestAgainAgainJoined2(ws: seq<string>)
    requires ws == ["this", "is"]
    ensures Unwords(ws) == "this is"
  {
    NormalizeThisIsATestAgainAgainJoined1(ws[..1]);
    JoinWithAppend(" ", ws[..1], ws[1]);
    assert ws == ws[..1] + [ws[1]];
    assert "this" + " " + "is" == "this is";
  }

  lemma NormalizeThisIsATestAgainAgainJoined3(ws: seq<string>)
    requires ws == ["this", "is", "test"]
    ensures Unwords(ws) == "this is test"
  {
    NormalizeThisIsATestAgainAgainJoined2(ws[..2]);
    JoinWithAppend(" ", ws[..2], ws[2]);
    assert ws == ws[..2] + [ws[2]];
    assert "this is" + " " + "test" == "this is test";
  }

  lemma NormalizeThisIsATestAgainAgainDigitWords(ws: seq<string>)
    requires ws == ["this", "is", "a", "test"]
    ensures DigitWords(ws) == ["this", "is", "a", "test"]
  {
    NormalizeThisIsATestAgainAgainLowered(ws);
    NormalizeThisIsATestAgainAgainReadings(true);
    NormalizeThisIsATestAgainAgainDigitize0(ws, [OtherWord, OtherWord, OtherWord, OtherWord]);
    NormalizeThisIsATestAgainAgainRendered([Plain("this"), Plain("is"), Plain("a"), Plain("test")]);
  }

  /** test/test_parse.py:865-866 */
  lemma NormalizeThisIsATestAgainAgain()
    ensures Normalize.Normalize("  this   is  a    test  ", true) == "this is test"
  {
    NormalizeThisIsATestAgainAgainExpandedWords("  this   is  a    test  ");
    NormalizeThisIsATestAgainAgainDigitWords(["this", "is", "a", "test"]);
    NormalizeThisIsATestAgainAgainDropped0(["this", "is", "a", "test"]);
    NormalizeThisIsATestAgainAgainJoined3(["this", "is", "test"]);
    NormalizeByWords("  this   is  a    test  ", true);
  }

  lemma NormalizeThisIsOneTestLowered(ws: seq<string>)
    requires ws == ["this", "is", "one", "test"]
    ensures MapLower(ws) == ["this", "is", "one", "test"]
  {
    forall i | 0 <= i < 4
      ensures Lower(ws[i]) == ["this", "is", "one", "test"][i]
    {
    }
  }

  lemma NormalizeThisIsOneTestReadings0(ws: seq<string>, ts: seq<Token>, shortScale: bool)
    requires ws == ["this", "is", "one", "test"]
    requires ts == [OtherWord, OtherWord, UnitWord(1), OtherWord]
    ensures Tokens(ws, shortScale) == ts
  {
    forall i | 0 <= i < 4
      ensures Classify(ws[i], shortScale) == ts[i]
    {
      if i == 0 { ReadThis(shortScale); }
      else if i == 1 { ReadIs(shortScale); }
      else if i == 2 { ReadOne(shortScale); }
      else if i == 3 { ReadTest(shortScale); }
    }
    TokensOfReadings(ws, ts, shortScale);
  }

  lemma NormalizeThisIsOneTestReadings(shortScale: bool)
    ensures Tokens(["this", "is", "one", "test"], shortScale) == [OtherWord, OtherWord, UnitWord(1), OtherWord]
  {
    NormalizeThisIsOneTestReadings0(["this", "is", "one", "test"], [OtherWord, OtherWord, UnitWord(1), OtherWord], shortScale);
  }

  lemma NormalizeThisIsOneTestDigitize0(ws: seq<string>, ts: seq<Token>)
    requires ws == ["this", "is", "one", "test"]
    requires ts == [OtherWord, OtherWord, UnitWord(1), OtherWord]
    ensures Digitize(ws, ts, None, None) == [Plain("this"), Plain("is"), Number(1), Plain("test")]
  {
    NormalizeThisIsOneTestDigitize1(ws[1..], ts[1..]);
  }

  lemma NormalizeThisIsOneTestDigitize1(ws: seq<string>, ts: seq<Token>)
    requires ws == ["is", "one", "test"]
    requires ts == [OtherWord, UnitWord(1), OtherWord]
    ensures Digitize(ws, ts, None, None) == [Plain("is"), Number(1), Plain("test")]
  {
    NormalizeThisIsOneTestDigitize2(ws[1..], ts[1..]);
  }

  lemma NormalizeThisIsOneTestDigitize2(ws: seq<string>, ts: seq<Token>)
    requires ws == ["one", "test"]
    requires ts == [UnitWord(1), OtherWord]
    ensures Digitize(ws, ts, None, None) == [Number(1), Plain("test")]
  {
    NormalizeThisIsOneTestDigitize3(ws[1..], ts[1..]);
  }

  lemma NormalizeThisIsOneTestDigitize3(ws: seq<string>, ts: seq<Token>)
    requires ws == ["test"]
    requires ts == [OtherWord]
    ensures Digitize(ws, ts, Some(Run(0, 1, UnitWord(1), false)), None) == [Number(1), Plain("test")]
  {
  }

  lemma NormalizeThisIsOneTestRendered(ps: seq<Piece>)
    requires ps == [Plain("this"), Plain("is"), Number(1), Plain("test")]
    ensures Render(ps) == ["this", "is", "1", "test"]
  {
    forall i | 0 <= i < 4
      ensures RenderPiece(ps[i]) == ["this", "is", "1", "test"][i]
    {
    }
  }

  lemma NormalizeThisIsOneTestDropped0(ws: seq<string>)
    requires ws == ["this", "is", "1", "test"]
    ensures DropArticles(ws) == ["this", "is", "1", "test"]
  {
    NormalizeThisIsOneTestDropped1(ws[1..]);
  }

  lemma NormalizeThisIsOneTestDropped1(ws: seq<string>)
    requires ws == ["is", "1", "test"]
    ensures DropArticles(ws) == ["is", "1", "test"]
  {
    NormalizeThisIsOneTestDropped2(ws[1..]);
  }

  lemma NormalizeThisIsOneTestDropped2(ws: seq<string>)
    requires ws == ["1", "test"]
    ensures DropArticles(ws) == ["1", "test"]
  {
    NormalizeThisIsOneTestDropped3(ws[1..]);
  }

  lemma NormalizeThisIsOneTestDropped3(ws: seq<string>)
    requires ws == ["test"]
    ensures DropArticles(ws) == ["test"]
  {
  }

  lemma NormalizeThisIsOneTestJoined1(ws: seq<string>)
    requires ws == ["this"]
    ensures Unwords(ws) == "this"
  {
  }

  lemma NormalizeThisIsOneTestJoined2(ws: seq<string>)
    requires ws == ["this", "is"]
    ensures Unwords(ws) == "this is"
  {
    NormalizeThisIsOneTestJoined1(ws[..1]);
    JoinWithAppend(" ", ws[..1], ws[1]);
    assert ws == ws[..1] + [ws[1]];
    assert "this" + " " + "is" == "this is";
  }

  lemma NormalizeThisIsOneTestJoined3(ws: seq<string>)
    requires ws == ["this", "is", "1"]
    ensures Unwords(ws) == "this is 1"
  {
    NormalizeThisIsOneTestJoined2(ws[..2]);
    JoinWithAppend(" ", ws[..2], ws[2]);
    assert ws == ws[..2] + [ws[2]];
    assert "this is" + " " + "1" == "this is 1";
  }

  lemma NormalizeThisIsOneTestJoined4(ws: seq<string>)
    requires ws == ["this", "is", "1", "test"]
    ensures Unwords(ws) == "this is 1 test"
  {
    NormalizeThisIsOneTestJoined3(ws[..3]);
    JoinWithAppend(" ", ws[..3], ws[3]);
    assert ws == ws[..3] + [ws[3]];
    assert "this is 1" + " " + "test" == "this is 1 test";
  }

  lemma NormalizeThisIsOneTestDigitWords(ws: seq<string>)
    requires ws == ["this", "is", "one", "test"]
    ensures DigitWords(ws) == ["this", "is", "1", "test"]
  {
    NormalizeThisIsOneTestLowered(ws);
    NormalizeThisIsOneTestReadings(true);
    NormalizeThisIsOneTestDigitize0(ws, [OtherWord, OtherWord, UnitWord(1), OtherWord]);
    NormalizeThisIsOneTestRendered([Plain("this"), Plain("is"), Number(1), Plain("test")]);
  }

  /** test/test_parse.py:867-868 */
  lemma NormalizeThisIsOneTest()
    ensures Normalize.Normalize("  this   is  one    test", true) == "this is 1 test"
  {
    NormalizeThisIsOneTestExpandedWords("  this   is  one    test");
    NormalizeThisIsOneTestDigitWords(["this", "is", "one", "test"]);
    NormalizeThisIsOneTestDropped0(["this", "is", "1", "test"]);
    NormalizeThisIsOneTestJoined4(["this", "is", "1", "test"]);
    NormalizeByWords("  this   is  one    test", true);
  }

  lemma NormalizeItApossAFourFiveLowered(ws: seq<string>)
    requires ws == ["it", "is", "a", "four", "five", "six", "test"]
    ensures MapLower(ws) == ["it", "is", "a", "four", "five", "six", "test"]
  {
    forall i | 0 <= i < 7
      ensures Lower(ws[i]) == ["it", "is", "a", "four", "five", "six", "test"][i]
    {
    }
  }

  lemma NormalizeItApossAFourFiveReadings0(ws: seq<string>, ts: seq<Token>, shortScale: bool)
    requires ws == ["it", "is", "a", "four"]
    requires ts == [OtherWord, OtherWord, OtherWord, UnitWord(4)]
    ensures Tokens(ws, shortScale) == ts
  {
    forall i | 0 <= i < 4
      ensures Classify(ws[i], shortScale) == ts[i]
    {
      if i == 0 { ReadIt(shortScale); }
      else if i == 1 { ReadIs(shortScale); }
      else if i == 2 { ReadA(shortScale); }
      else if i == 3 { ReadFour(shortScale); }
    }
    TokensOfReadings(ws, ts, shortScale);
  }

  lemma NormalizeItApossAFourFiveReadings1(ws: seq<string>, ts: seq<Token>, shortScale: bool)
    requires ws == ["five", "six", "test"]
    requires ts == [UnitWord(5), UnitWord(6), OtherWord]
    ensures Tokens(ws, shortScale) == ts
  {
    forall i | 0 <= i < 3
      ensures Classify(ws[i], shortScale) == ts[i]
    {
      if i == 0 { ReadFive(shortScale); }
      else if i == 1 { ReadSix(shortScale); }
      else if i == 2 { ReadTest(shortScale); }
    }
    TokensOfReadings(ws, ts, shortScale);
  }

  lemma NormalizeItApossAFourFiveWordChunks()
    ensures ["it", "is", "a", "four", "five", "six", "test"] == ["it", "is", "a", "four"] + ["five", "six", "test"]
  {
  }

  lemma NormalizeItApossAFourFiveTokenChunks(shortScale: bool)
    ensures [OtherWord, OtherWord, OtherWord, UnitWord(4), UnitWord(5), UnitWord(6), OtherWord] == [OtherWord, OtherWord, OtherWord, UnitWord(4)] + [UnitWord(5), UnitWord(6), OtherWord]
  {
  }

  lemma NormalizeItApossAFourFiveReadings(shortScale: bool)
    ensures Tokens(["it", "is", "a", "four", "five", "six", "test"], shortScale) == [OtherWord, OtherWord, OtherWord, UnitWord(4), UnitWord(5), UnitWord(6), OtherWord]
  {
    var w0, w1 := ["it", "is", "a", "four"], ["five", "six", "test"];
    var t0, t1 := [OtherWord, OtherWord, OtherWord, UnitWord(4)], [UnitWord(5), UnitWord(6), OtherWord];
    NormalizeItApossAFourFiveReadings0(w0, t0, shortScale);
    NormalizeItApossAFourFiveReadings1(w1, t1, shortScale);
    TokensJoin(w0, w1, t0, t1, shortScale);
    NormalizeItApossAFourFiveWordChunks();
    NormalizeItApossAFourFiveTokenChunks(shortScale);
  }

  lemma NormalizeItApossAFourFiveDigitize0(ws: seq<string>, ts: seq<Token>)
    requires ws == ["it", "is", "a", "four", "five", "six", "test"]
    requires ts == [OtherWord, OtherWord, OtherWord, UnitWord(4), UnitWord(5), UnitWord(6), OtherWord]
    ensures Digitize(ws, ts, None, None) == [Plain("it"), Plain("is"), Plain("a"), Number(4), Number(5), Number(6), Plain("test")]
  {
    NormalizeItApossAFourFiveDigitize1(ws[1..], ts[1..]);
  }

  lemma NormalizeItApossAFourFiveDigitize1(ws: seq<string>, ts: seq<Token>)
    requires ws == ["is", "a", "four", "five", "six", "test"]
    requires ts == [OtherWord, OtherWord, UnitWord(4), UnitWord(5), UnitWord(6), OtherWord]
    ensures Digitize(ws, ts, None, None) == [Plain("is"), Plain("a"), Number(4), Number(5), Number(6), Plain("test")]
  {
    NormalizeItApossAFourFiveDigitize2(ws[1..], ts[1..]);
  }

  lemma NormalizeItApossAFourFiveDigitize2(ws: seq<string>, ts: seq<Token>)
    requires ws == ["a", "four", "five", "six", "test"]
    requires ts == [OtherWord, UnitWord(4), UnitWord(5), UnitWord(6), OtherWord]
    ensures Digitize(ws, ts, None, None) == [Plain("a"), Number(4), Number(5), Number(6), Plain("test")]
  {
    NormalizeItApossAFourFiveDigitize3(ws[1..], ts[1..]);
  }

  lemma NormalizeItApossAFourFiveDigitize3(ws: seq<string>, ts: seq<Token>)
    requires ws == ["four", "five", "six", "test"]
    requires ts == [UnitWord(4), UnitWord(5), UnitWord(6), OtherWord]
    ensures Digitize(ws, ts, None, None) == [Number(4), Number(5), Number(6), Plain("test")]
  {
    NormalizeItApossAFourFiveDigitize4(ws[1..], ts[1..]);
  }

  lemma NormalizeItApossAFourFiveDigitize4(ws: seq<string>, ts: seq<Token>)
    requires ws == ["five", "six", "test"]
    requires ts == [UnitWord(5), UnitWord(6), OtherWord]
    ensures Digitize(ws, ts, Some(Run(0, 4, UnitWord(4), false)), None) == [Number(4), Number(5), Number(6), Plain("test")]
  {
    NormalizeItApossAFourFiveDigitize5(ws[1..], ts[1..]);
  }

  lemma NormalizeItApossAFourFiveDigitize5(ws: seq<string>, ts: seq<Token>)
    requires ws == ["six", "test"]
    requires ts == [UnitWord(6), OtherWord]
    ensures Digitize(ws, ts, Some(Run(0, 5, UnitWord(5), false)), None) == [Number(5), Number(6), Plain("test")]
  {
    NormalizeItApossAFourFiveDigitize6(ws[1..], ts[1..]);
  }

  lemma NormalizeItApossAFourFiveDigitize6(ws: seq<string>, ts: seq<Token>)
    requires ws == ["test"]
    requires ts == [OtherWord]
    ensures Digitize(ws, ts, Some(Run(0, 6, UnitWord(6), false)), None) == [Number(6), Plain("test")]
  {
  }

  lemma NormalizeItApossAFourFiveRendered(ps: seq<Piece>)
    requires ps == [Plain("it"), Plain("is"), Plain("a"), Number(4), Number(5), Number(6), Plain("test")]
    ensures Render(ps) == ["it", "is", "a", "4", "5", "6", "test"]
  {
    forall i | 0 <= i < 7
      ensures RenderPiece(ps[i]) == ["it", "is", "a", "4", "5", "6", "test"][i]
    {
    }
  }

  lemma NormalizeItApossAFourFiveDropped0(ws: seq<string>)
    requires ws == ["it", "is", "a", "4", "5", "6", "test"]
    ensures DropArticles(ws) == ["it", "is", "4", "5", "6", "test"]
  {
    NormalizeItApossAFourFiveDropped1(ws[1..]);
  }

  lemma NormalizeItApossAFourFiveDropped1(ws: seq<string>)
    requires ws == ["is", "a", "4", "5", "6", "test"]
    ensures DropArticles(ws) == ["is", "4", "5", "6", "test"]
  {
    NormalizeItApossAFourFiveDropped2(ws[1..]);
  }

  lemma NormalizeItApossAFourFiveDropped2(ws: seq<string>)
    requires ws == ["a", "4", "5", "6", "test"]
    ensures DropArticles(ws) == ["4", "5", "6", "test"]
  {
    NormalizeItApossAFourFiveDropped3(ws[1..]);
  }

  lemma NormalizeItApossAFourFiveDropped3(ws: seq<string>)
    requires ws == ["4", "5", "6", "test"]
    ensures DropArticles(ws) == ["4", "5", "6", "test"]
  {
    NormalizeItApossAFourFiveDropped4(ws[1..]);
  }

  lemma NormalizeItApossAFourFiveDropped4(ws: seq<string>)
    requires ws == ["5", "6", "test"]
    ensures DropArticles(ws) == ["5", "6", "test"]
  {
    NormalizeItApossAFourFiveDropped5(ws[1..]);
  }

  lemma NormalizeItApossAFourFiveDropped5(ws: seq<string>)
    requires ws == ["6", "test"]
    ensures DropArticles(ws) == ["6", "test"]
  {
    NormalizeItApossAFourFiveDropped6(ws[1..]);
  }

  lemma NormalizeItApossAFourFiveDropped6(ws: seq<string>)
    requires ws == ["test"]
    ensures DropArticles(ws) == ["test"]
  {
  }

  lemma NormalizeItApossAFourFiveJoined1(ws: seq<string>)
    requires ws == ["it"]
    ensures Unwords(ws) == "it"
  {
  }

  lemma NormalizeItApossAFourFiveJoined2(ws: seq<string>)
    requires ws == ["it", "is"]
    ensures Unwords(ws) == "it is"
  {
    NormalizeItApossAFourFiveJoined1(ws[..1]);
    JoinWithAppend(" ", ws[..1], ws[1]);
    assert ws == ws[..1] + [ws[1]];
    assert "it" + " " + "is" == "it is";
  }

  lemma NormalizeItApossAFourFiveJoined3(ws: seq<string>)
    requires ws == ["it", "is", "4"]
    ensures Unwords(ws) == "it is 4"
  {
    NormalizeItApossAFourFiveJoined2(ws[..2]);
    JoinWithAppend(" ", ws[..2], ws[2]);
    assert ws == ws[..2] + [ws[2]];
    assert "it is" + " " + "4" == "it is 4";
  }

  lemma NormalizeItApossAFourFiveJoined4(ws: seq<string>)
    requires ws == ["it", "is", "4", "5"]
    ensures Unwords(ws) == "it is 4 5"
  {
    NormalizeItApossAFourFiveJoined3(ws[..3]);
    JoinWithAppend(" ", ws[..3], ws[3]);
    assert ws == ws[..3] + [ws[3]];
    assert "it is 4" + " " + "5" == "it is 4 5";
  }

  lemma NormalizeItApossAFourFiveJoined5(ws: seq<string>)
    requires ws == ["it", "is", "4", "5", "6"]
    ensures Unwords(ws) == "it is 4 5 6"
  {
    NormalizeItApossAFourFiveJoined4(ws[..4]);
    JoinWithAppend(" ", ws[..4], ws[4]);
    assert ws == ws[..4] + [ws[4]];
    assert "it is 4 5" + " " + "6" == "it is 4 5 6";
  }

  lemma NormalizeItApossAFourFiveJoined6(ws: seq<string>)
    requires ws == ["it", "is", "4", "5", "6", "test"]
    ensures Unwords(ws) == "it is 4 5 6 test"
  {
    NormalizeItApossAFourFiveJoined5(ws[..5]);
    JoinWithAppend(" ", ws[..5], ws[5]);
    assert ws == ws[..5] + [ws[5]];
    assert "it is 4 5 6" + " " + "test" == "it is 4 5 6 test";
  }

  lemma NormalizeItApossAFourFiveDigitWords(ws: seq<string>)
    requires ws == ["it", "is", "a", "four", "five", "six", "test"]
    ensures DigitWords(ws) == ["it", "is", "a", "4", "5", "6", "test"]
  {
    NormalizeItApossAFourFiveLowered(ws);
    NormalizeItApossAFourFiveReadings(true);
    NormalizeItApossAFourFiveDigitize0(ws, [OtherWord, OtherWord, OtherWord, UnitWord(4), UnitWord(5), UnitWord(6), OtherWord]);
    NormalizeItApossAFourFiveRendered([Plain("it"), Plain("is"), Plain("a"), Number(4), Number(5), Number(6), Plain("test")]);
  }

  /** test/test_parse.py:873-874 */
  lemma NormalizeItApossAFourFive()
    ensures Normalize.Normalize("  it's  a four five six  test", true) == "it is 4 5 6 test"
  {
    NormalizeItApossAFourFiveExpandedWords("  it's  a four five six  test");
    NormalizeItApossAFourFiveDigitWords(["it", "is", "a", "four", "five", "six", "test"]);
    NormalizeItApossAFourFiveDropped0(["it", "is", "a", "4", "5", "6", "test"]);
    NormalizeItApossAFourFiveJoined6(["it", "is", "4", "5", "6", "test"]);
    NormalizeByWords("  it's  a four five six  test", true);
  }

  lemma NormalizeItApossASevenEightLowered(ws: seq<string>)
    requires ws == ["it", "is", "a", "seven", "eight", "nine", "test"]
    ensures MapLower(ws) == ["it", "is", "a", "seven", "eight", "nine", "test"]
  {
    forall i | 0 <= i < 7
      ensures Lower(ws[i]) == ["it", "is", "a", "seven", "eight", "nine", "test"][i]
    {
    }
  }

  lemma NormalizeItApossASevenEightReadings0(ws: seq<string>, ts: seq<Token>, shortScale: bool)
    requires ws == ["it", "is", "a", "seven"]
    requires ts == [OtherWord, OtherWord, OtherWord, UnitWord(7)]
    ensures Tokens(ws, shortScale) == ts
  {
    forall i | 0 <= i < 4
      ensures Classify(ws[i], shortScale) == ts[i]
    {
      if i == 0 { ReadIt(shortScale); }
      else if i == 1 { ReadIs(shortScale); }
      else if i == 2 { ReadA(shortScale); }
      else if i == 3 { ReadSeven(shortScale); }
    }
    TokensOfReadings(ws, ts, shortScale);
  }

  lemma NormalizeItApossASevenEightReadings1(ws: seq<string>, ts: seq<Token>, shortScale: bool)
    requires ws == ["eight", "nine", "test"]
    requires ts == [UnitWord(8), UnitWord(9), OtherWord]
    ensures Tokens(ws, shortScale) == ts
  {
    forall i | 0 <= i < 3
      ensures Classify(ws[i], shortScale) == ts[i]
    {
      if i == 0 { ReadEight(shortScale); }
      else if i == 1 { ReadNine(shortScale); }
      else if i == 2 { ReadTest(shortScale); }
    }
    TokensOfReadings(ws, ts, shortScale);
  }

  lemma NormalizeItApossASevenEightWordChunks()
    ensures ["it", "is", "a", "seven", "eight", "nine", "test"] == ["it", "is", "a", "seven"] + ["eight", "nine", "test"]
  {
  }

  lemma NormalizeItApossASevenEightTokenChunks(shortScale: bool)
    ensures [OtherWord, OtherWord, OtherWord, UnitWord(7), UnitWord(8), UnitWord(9), OtherWord] == [OtherWord, OtherWord, OtherWord, UnitWord(7)] + [UnitWord(8), UnitWord(9), OtherWord]
  {
  }

  lemma NormalizeItApossASevenEightReadings(shortScale: bool)
    ensures Tokens(["it", "is", "a", "seven", "eight", "nine", "test"], shortScale) == [OtherWord, OtherWord, OtherWord, UnitWord(7), UnitWord(8), UnitWord(9), OtherWord]
  {
    var w0, w1 := ["it", "is", "a", "seven"], ["eight", "nine", "test"];
    var t0, t1 := [OtherWord, OtherWord, OtherWord, UnitWord(7)], [UnitWord(8), UnitWord(9), OtherWord];
    NormalizeItApossASevenEightReadings0(w0, t0, shortScale);
    NormalizeItApossASevenEightReadings1(w1, t1, shortScale);
    TokensJoin(w0, w1, t0, t1, shortScale);
    NormalizeItApossASevenEightWordChunks();
    NormalizeItApossASevenEightTokenChunks(shortScale);
  }

  lemma NormalizeItApossASevenEightDigitize0(ws: seq<string>, ts: seq<Token>)
    requires ws == ["it", "is", "a", "seven", "eight", "nine", "test"]
    requires ts == [OtherWord, OtherWord, OtherWord, UnitWord(7), UnitWord(8), UnitWord(9), OtherWord]
    ensures Digitize(ws, ts, None, None) == [Plain("it"), Plain("is"), Plain("a"), Number(7), Number(8), Number(9), Plain("test")]
  {
    NormalizeItApossASevenEightDigitize1(ws[1..], ts[1..]);
  }

  lemma NormalizeItApossASevenEightDigitize1(ws: seq<string>, ts: seq<Token>)
    requires ws == ["is", "a", "seven", "eight", "nine", "test"]
    requires ts == [OtherWord, OtherWord, UnitWord(7), UnitWord(8), UnitWord(9), OtherWord]
    ensures Digitize(ws, ts, None, None) == [Plain("is"), Plain("a"), Number(7), Number(8), Number(9), Plain("test")]
  {
    NormalizeItApossASevenEightDigitize2(ws[1..], ts[1..]);
  }

  lemma NormalizeItApossASevenEightDigitize2(ws: seq<string>, ts: seq<Token>)
    requires ws == ["a", "seven", "eight", "nine", "test"]
    requires ts == [OtherWord, UnitWord(7), UnitWord(8), UnitWord(9), OtherWord]
    ensures Digitize(ws, ts, None, None) == [Plain("a"), Number(7), Number(8), Number(9), Plain("test")]
  {
    NormalizeItApossASevenEightDigitize3(ws[1..], ts[1..]);
  }

  lemma NormalizeItApossASevenEightDigitize3(ws: seq<string>, ts: seq<Token>)
    requires ws == ["seven", "eight", "nine", "test"]
    requires ts == [UnitWord(7), UnitWord(8), UnitWord(9), OtherWord]
    ensures Digitize(ws, ts, None, None) == [Number(7), Number(8), Number(9), Plain("test")]
  {
    NormalizeItApossASevenEightDigitize4(ws[1..], ts[1..]);
  }

  lemma NormalizeItApossASevenEightDigitize4(ws: seq<string>, ts: seq<Token>)
    requires ws == ["eight", "nine", "test"]
    requires ts == [UnitWord(8), UnitWord(9), OtherWord]
    ensures Digitize(ws, ts, Some(Run(0, 7, UnitWord(7), false)), None) == [Number(7), Number(8), Number(9), Plain("test")]
  {
    NormalizeItApossASevenEightDigitize5(ws[1..], ts[1..]);
  }

  lemma NormalizeItApossASevenEightDigitize5(ws: seq<string>, ts: seq<Token>)
    requires ws == ["nine", "test"]
    requires ts == [UnitWord(9), OtherWord]
    ensures Digitize(ws, ts, Some(Run(0, 8, UnitWord(8), false)), None) == [Number(8), Number(9), Plain("test")]
  {
    NormalizeItApossASevenEightDigitize6(ws[1..], ts[1..]);
  }

  lemma NormalizeItApossASevenEightDigitize6(ws: seq<string>, ts: seq<Token>)
    requires ws == ["test"]
    requires ts == [OtherWord]
    ensures Digitize(ws, ts, Some(Run(0, 9, UnitWord(9), false)), None) == [Number(9), Plain("test")]
  {
  }

  lemma NormalizeItApossASevenEightRendered(ps: seq<Piece>)
    requires ps == [Plain("it"), Plain("is"), Plain("a"), Number(7), Number(8), Number(9), Plain("test")]
    ensures Render(ps) == ["it", "is", "a", "7", "8", "9", "test"]
  {
    forall i | 0 <= i < 7
      ensures RenderPiece(ps[i]) == ["it", "is", "a", "7", "8", "9", "test"][i]
    {
    }
  }

  lemma NormalizeItApossASevenEightDropped0(ws: seq<string>)
    requires ws == ["it", "is", "a", "7", "8", "9", "test"]
    ensures DropArticles(ws) == ["it", "is", "7", "8", "9", "test"]
  {
    NormalizeItApossASevenEightDropped1(ws[1..]);
  }

  lemma NormalizeItApossASevenEightDropped1(ws: seq<string>)
    requires ws == ["is", "a", "7", "8", "9", "test"]
    ensures DropArticles(ws) == ["is", "7", "8", "9", "test"]
  {
    NormalizeItApossASevenEightDropped2(ws[1..]);
  }

  lemma NormalizeItApossASevenEightDropped2(ws: seq<string>)
    requires ws == ["a", "7", "8", "9", "test"]
    ensures DropArticles(ws) == ["7", "8", "9", "test"]
  {
    NormalizeItApossASevenEightDropped3(ws[1..]);
  }

  lemma NormalizeItApossASevenEightDropped3(ws: seq<string>)
    requires ws == ["7", "8", "9", "test"]
    ensures DropArticles(ws) == ["7", "8", "9", "test"]
  {
    NormalizeItApossASevenEightDropped4(ws[1..]);
  }

  lemma NormalizeItApossASevenEightDropped4(ws: seq<string>)
    requires ws == ["8", "9", "test"]
    ensures DropArticles(ws) == ["8", "9", "test"]
  {
    NormalizeItApossASevenEightDropped5(ws[1..]);
  }

  lemma NormalizeItApossASevenEightDropped5(ws: seq<string>)
    requires ws == ["9", "test"]
    ensures DropArticles(ws) == ["9", "test"]
  {
    NormalizeItApossASevenEightDropped6(ws[1..]);
  }

  lemma NormalizeItApossASevenEightDropped6(ws: seq<string>)
    requires ws == ["test"]
    ensures DropArticles(ws) == ["test"]
  {
  }

  lemma NormalizeItApossASevenEightJoined1(ws: seq<string>)
    requires ws == ["it"]
    ensures Unwords(ws) == "it"
  {
  }

  lemma NormalizeItApossASevenEightJoined2(ws: seq<string>)
    requires ws == ["it", "is"]
    ensures Unwords(ws) == "it is"
  {
    NormalizeItApossASevenEightJoined1(ws[..1]);
    JoinWithAppend(" ", ws[..1], ws[1]);
    assert ws == ws[..1] + [ws[1]];
    assert "it" + " " + "is" == "it is";
  }

  lemma NormalizeItApossASevenEightJoined3(ws: seq<string>)
    requires ws == ["it", "is", "7"]
    ensures Unwords(ws) == "it is 7"
  {
    NormalizeItApossASevenEightJoined2(ws[..2]);
    JoinWithAppend(" ", ws[..2], ws[2]);
    assert ws == ws[..2] + [ws[2]];
    assert "it is" + " " + "7" == "it is 7";
  }

  lemma NormalizeItApossASevenEightJoined4(ws: seq<string>)
    requires ws == ["it", "is", "7", "8"]
    ensures Unwords(ws) == "it is 7 8"
  {
    NormalizeItApossASevenEightJoined3(ws[..3]);
    JoinWithAppend(" ", ws[..3], ws[3]);
    assert ws == ws[..3] + [ws[3]];
    assert "it is 7" + " " + "8" == "it is 7 8";
  }

  lemma NormalizeItApossASevenEightJoined5(ws: seq<string>)
    requires ws == ["it", "is", "7", "8", "9"]
    ensures Unwords(ws) == "it is 7 8 9"
  {
    NormalizeItApossASevenEightJoined4(ws[..4]);
    JoinWithAppend(" ", ws[..4], ws[4]);
    assert ws == ws[..4] + [ws[4]];
    assert "it is 7 8" + " " + "9" == "it is 7 8 9";
  }

  lemma NormalizeItApossASevenEightJoined6(ws: seq<string>)
    requires ws == ["it", "is", "7", "8", "9", "test"]
    ensures Unwords(ws) == "it is 7 8 9 test"
  {
    NormalizeItApossASevenEightJoined5(ws[..5]);
    JoinWithAppend(" ", ws[..5], ws[5]);
    assert ws == ws[..5] + [ws[5]];
    assert "it is 7 8 9" + " " + "test" == "it is 7 8 9 test";
  }

  lemma NormalizeItApossASevenEightDigitWords(ws: seq<string>)
    requires ws == ["it", "is", "a", "seven", "eight", "nine", "test"]
    ensures DigitWords(ws) == ["it", "is", "a", "7", "8", "9", "test"]
  {
    NormalizeItApossASevenEightLowered(ws);
    NormalizeItApossASevenEightReadings(true);
    NormalizeItApossASevenEightDigitize0(ws, [OtherWord, OtherWord, OtherWord, UnitWord(7), UnitWord(8), UnitWord(9), OtherWord]);
    NormalizeItApossASevenEightRendered([Plain("it"), Plain("is"), Plain("a"), Number(7), Number(8), Number(9), Plain("test")]);
  }

  /** test/test_parse.py:875-876 */
  lemma NormalizeItApossASevenEight()
    ensures Normalize.Normalize("it's  a seven eight nine test", true) == "it is 7 8 9 test"
  {
    NormalizeItApossASevenEightExpandedWords("it's  a seven eight nine test");
    NormalizeItApossASevenEightDigitWords(["it", "is", "a", "seven", "eight", "nine", "test"]);
    NormalizeItApossASevenEightDropped0(["it", "is", "a", "7", "8", "9", "test"]);
    NormalizeItApossASevenEightJoined6(["it", "is", "7", "8", "9", "test"]);
    NormalizeByWords("it's  a seven eight nine test", true);
  }

  lemma NormalizeThatApossOneHundredLowered(ws: seq<string>)
    requires ws == ["that", "is", "one", "hundred"]
    ensures MapLower(ws) == ["that", "is", "one", "hundred"]
  {
    forall i | 0 <= i < 4
      ensures Lower(ws[i]) == ["that", "is", "one", "hundred"][i]
    {
    }
  }

  lemma NormalizeThatApossOneHundredReadings0(ws: seq<string>, ts: seq<Token>, shortScale: bool)
    requires ws == ["that", "is", "one", "hundred"]
    requires ts == [OtherWord, OtherWord, UnitWord(1), HundredWord]
    ensures Tokens(ws, shortScale) == ts
  {
    forall i | 0 <= i < 4
      ensures Classify(ws[i], shortScale) == ts[i]
    {
      if i == 0 { ReadThat(shortScale); }
      else if i == 1 { ReadIs(shortScale); }
      else if i == 2 { ReadOne(shortScale); }
      else if i == 3 { ReadHundred(shortScale); }
    }
    TokensOfReadings(ws, ts, shortScale);
  }

  lemma NormalizeThatApossOneHundredReadings(shortScale: bool)
    ensures Tokens(["that", "is", "one", "hundred"], shortScale) == [OtherWord, OtherWord, UnitWord(1), HundredWord]
  {
    NormalizeThatApossOneHundredReadings0(["that", "is", "one", "hundred"], [OtherWord, OtherWord, UnitWord(1), HundredWord], shortScale);
  }

  lemma NormalizeThatApossOneHundredDigitize0(ws: seq<string>, ts: seq<Token>)
    requires ws == ["that", "is", "one", "hundred"]
    requires ts == [OtherWord, OtherWord, UnitWord(1), HundredWord]
    ensures Digitize(ws, ts, None, None) == [Plain("that"), Plain("is"), Number(100)]
  {
    NormalizeThatApossOneHundredDigitize1(ws[1..], ts[1..]);
  }

  lemma NormalizeThatApossOneHundredDigitize1(ws: seq<string>, ts: seq<Token>)
    requires ws == ["is", "one", "hundred"]
    requires ts == [OtherWord, UnitWord(1), HundredWord]
    ensures Digitize(ws, ts, None, None) == [Plain("is"), Number(100)]
  {
    NormalizeThatApossOneHundredDigitize2(ws[1..], ts[1..]);
  }

  lemma NormalizeThatApossOneHundredDigitize2(ws: seq<string>, ts: seq<Token>)
    requires ws == ["one", "hundred"]
    requires ts == [UnitWord(1), HundredWord]
    ensures Digitize(ws, ts, None, None) == [Number(100)]
  {
    NormalizeThatApossOneHundredDigitize3(ws[1..], ts[1..]);
  }

  lemma NormalizeThatApossOneHundredDigitize3(ws: seq<string>, ts: seq<Token>)
    requires ws == ["hundred"]
    requires ts == [HundredWord]
    ensures Digitize(ws, ts, Some(Run(0, 1, UnitWord(1), false)), None) == [Number(100)]
  {
  }

  lemma NormalizeThatApossOneHundredRendered(ps: seq<Piece>)
    requires ps == [Plain("that"), Plain("is"), Number(100)]
    ensures Render(ps) == ["that", "is", "100"]
  {
    forall i | 0 <= i < 3
      ensures RenderPiece(ps[i]) == ["that", "is", "100"][i]
    {
    }
  }

  lemma NormalizeThatApossOneHundredDropped0(ws: seq<string>)
    requires ws == ["that", "is", "100"]
    ensures DropArticles(ws) == ["that", "is", "100"]
  {
    NormalizeThatApossOneHundredDropped1(ws[1..]);
  }

  lemma NormalizeThatApossOneHundredDropped1(ws: seq<string>)
    requires ws == ["is", "100"]
    ensures DropArticles(ws) == ["is", "100"]
  {
    NormalizeThatApossOneHundredDropped2(ws[1..]);
  }

  lemma NormalizeThatApossOneHundredDropped2(ws: seq<string>)
    requires ws == ["100"]
    ensures DropArticles(ws) == ["100"]
  {
  }

  lemma NormalizeThatApossOneHundredJoined1(ws: seq<string>)
    requires ws == ["that"]
    ensures Unwords(ws) == "that"
  {
  }

  lemma NormalizeThatApossOneHundredJoined2(ws: seq<string>)
    requires ws == ["that", "is"]
    ensures Unwords(ws) == "that is"
  {
    NormalizeThatApossOneHundredJoined1(ws[..1]);
    JoinWithAppend(" ", ws[..1], ws[1]);
    assert ws == ws[..1] + [ws[1]];
    assert "that" + " " + "is" == "that is";
  }

  lemma NormalizeThatApossOneHundredJoined3(ws: seq<string>)
    requires ws == ["that", "is", "100"]
    ensures Unwords(ws) == "that is 100"
  {
    NormalizeThatApossOneHundredJoined2(ws[..2]);
    JoinWithAppend(" ", ws[..2], ws[2]);
    assert ws == ws[..2] + [ws[2]];
    assert "that is" + " " + "100" == "that is 100";
  }

  lemma NormalizeThatApossOneHundredDigitWords(ws: seq<string>)
    requires ws == ["that", "is", "one", "hundred"]
    ensures DigitWords(ws) == ["that", "is", "100"]
  {
    NormalizeThatApossOneHundredLowered(ws);
    NormalizeThatApossOneHundredReadings(true);
    NormalizeThatApossOneHundredDigitize0(ws, [OtherWord, OtherWord, UnitWord(1), HundredWord]);
    NormalizeThatApossOneHundredRendered([Plain("that"), Plain("is"), Number(100)]);
  }

  /** test/test_parse.py:889-890 */
  lemma NormalizeThatApossOneHundred()
    ensures Normalize.Normalize("that's one hundred", true) == "that is 100"
  {
    NormalizeThatApossOneHundredExpandedWords("that's one hundred");
    NormalizeThatApossOneHundredDigitWords(["that", "is", "one", "hundred"]);
    NormalizeThatApossOneHundredDropped0(["that", "is", "100"]);
    NormalizeThatApossOneHundredJoined3(["that", "is", "100"]);
    NormalizeByWords("that's one hundred", true);
  }

  lemma NormalizeThatApossOneAndALowered(ws: seq<string>)
    requires ws == ["that", "is", "one", "and", "a", "half"]
    ensures MapLower(ws) == ["that", "is", "one", "and", "a", "half"]
  {
    forall i | 0 <= i < 6
      ensures Lower(ws[i]) == ["that", "is", "one", "and", "a", "half"][i]
    {
    }
  }

  lemma NormalizeThatApossOneAndAReadings0(ws: seq<string>, ts: seq<Token>, shortScale: bool)
    requires ws == ["that", "is", "one", "and"]
    requires ts == [OtherWord, OtherWord, UnitWord(1), AndWord]
    ensures Tokens(ws, shortScale) == ts
  {
    forall i | 0 <= i < 4
      ensures Classify(ws[i], shortScale) == ts[i]
    {
      if i == 0 { ReadThat(shortScale); }
      else if i == 1 { ReadIs(shortScale); }
      else if i == 2 { ReadOne(shortScale); }
      else if i == 3 { ReadAnd(shortScale); }
    }
    TokensOfReadings(ws, ts, shortScale);
  }

  lemma NormalizeThatApossOneAndAReadings1(ws: seq<string>, ts: seq<Token>, shortScale: bool)
    requires ws == ["a", "half"]
    requires ts == [OtherWord, OtherWord]
    ensures Tokens(ws, shortScale) == ts
  {
    forall i | 0 <= i < 2
      ensures Classify(ws[i], shortScale) == ts[i]
    {
      if i == 0 { ReadA(shortScale); }
      else if i == 1 { ReadHalf(shortScale); }
    }
    TokensOfReadings(ws, ts, shortScale);
  }

  lemma NormalizeThatApossOneAndAWordChunks()
    ensures ["that", "is", "one", "and", "a", "half"] == ["that", "is", "one", "and"] + ["a", "half"]
  {
  }

  lemma NormalizeThatApossOneAndATokenChunks(shortScale: bool)
    ensures [OtherWord, OtherWord, UnitWord(1), AndWord, OtherWord, OtherWord] == [OtherWord, OtherWord, UnitWord(1), AndWord] + [OtherWord, OtherWord]
  {
  }

  lemma NormalizeThatApossOneAndAReadings(shortScale: bool)
    ensures Tokens(["that", "is", "one", "and", "a", "half"], shortScale) == [OtherWord, OtherWord, UnitWord(1), AndWord, OtherWord, OtherWord]
  {
    var w0, w1 := ["that", "is", "one", "and"], ["a", "half"];
    var t0, t1 := [OtherWord, OtherWord, UnitWord(1), AndWord], [OtherWord, OtherWord];
    NormalizeThatApossOneAndAReadings0(w0, t0, shortScale);
    NormalizeThatApossOneAndAReadings1(w1, t1, shortScale);
    TokensJoin(w0, w1, t0, t1, shortScale);
    NormalizeThatApossOneAndAWordChunks();
    NormalizeThatApossOneAndATokenChunks(shortScale);
  }

  lemma NormalizeThatApossOneAndADigitize0(ws: seq<string>, ts: seq<Token>)
    requires ws == ["that", "is", "one", "and", "a", "half"]
    requires ts == [OtherWord, OtherWord, UnitWord(1), AndWord, OtherWord, OtherWord]
    ensures Digitize(ws, ts, None, None) == [Plain("that"), Plain("is"), Number(1), Plain("and"), Plain("a"), Plain("half")]
  {
    NormalizeThatApossOneAndADigitize1(ws[1..], ts[1..]);
  }

  lemma NormalizeThatApossOneAndADigitize1(ws: seq<string>, ts: seq<Token>)
    requires ws == ["is", "one", "and", "a", "half"]
    requires ts == [OtherWord, UnitWord(1), AndWord, OtherWord, OtherWord]
    ensures Digitize(ws, ts, None, None) == [Plain("is"), Number(1), Plain("and"), Plain("a"), Plain("half")]
  {
    NormalizeThatApossOneAndADigitize2(ws[1..], ts[1..]);
  }

  lemma NormalizeThatApossOneAndADigitize2(ws: seq<string>, ts: seq<Token>)
    requires ws == ["one", "and", "a", "half"]
    requires ts == [UnitWord(1), AndWord, OtherWord, OtherWord]
    ensures Digitize(ws, ts, None, None) == [Number(1), Plain("and"), Plain("a"), Plain("half")]
  {
    NormalizeThatApossOneAndADigitize3(ws[1..], ts[1..]);
  }

  lemma NormalizeThatApossOneAndADigitize3(ws: seq<string>, ts: seq<Token>)
    requires ws == ["and", "a", "half"]
    requires ts == [AndWord, OtherWord, OtherWord]
    ensures Digitize(ws, ts, Some(Run(0, 1, UnitWord(1), false)), None) == [Number(1), Plain("and"), Plain("a"), Plain("half")]
  {
    NormalizeThatApossOneAndADigitize4(ws[1..], ts[1..]);
  }

  lemma NormalizeThatApossOneAndADigitize4(ws: seq<string>, ts: seq<Token>)
    requires ws == ["a", "half"]
    requires ts == [OtherWord, OtherWord]
    ensures Digitize(ws, ts, None, None) == [Plain("a"), Plain("half")]
  {
    NormalizeThatApossOneAndADigitize5(ws[1..], ts[1..]);
  }

  lemma NormalizeThatApossOneAndADigitize5(ws: seq<string>, ts: seq<Token>)
    requires ws == ["half"]
    requires ts == [OtherWord]
    ensures Digitize(ws, ts, None, None) == [Plain("half")]
  {
  }

  lemma NormalizeThatApossOneAndARendered(ps: seq<Piece>)
    requires ps == [Plain("that"), Plain("is"), Number(1), Plain("and"), Plain("a"), Plain("half")]
    ensures Render(ps) == ["that", "is", "1", "and", "a", "half"]
  {
    forall i | 0 <= i < 6
      ensures RenderPiece(ps[i]) == ["that", "is", "1", "and", "a", "half"][i]
    {
    }
  }

  lemma NormalizeThatApossOneAndADropped0(ws: seq<string>)
    requires ws == ["that", "is", "1", "and", "a", "half"]
    ensures DropArticles(ws) == ["that", "is", "1", "and", "half"]
  {
    NormalizeThatApossOneAndADropped1(ws[1..]);
  }

  lemma NormalizeThatApossOneAndADropped1(ws: seq<string>)
    requires ws == ["is", "1", "and", "a", "half"]
    ensures DropArticles(ws) == ["is", "1", "and", "half"]
  {
    NormalizeThatApossOneAndADropped2(ws[1..]);
  }

  lemma NormalizeThatApossOneAndADropped2(ws: seq<string>)
    requires ws == ["1", "and", "a", "half"]
    ensures DropArticles(ws) == ["1", "and", "half"]
  {
    NormalizeThatApossOneAndADropped3(ws[1..]);
  }

  lemma NormalizeThatApossOneAndADropped3(ws: seq<string>)
    requires ws == ["and", "a", "half"]
    ensures DropArticles(ws) == ["and", "half"]
  {
    NormalizeThatApossOneAndADropped4(ws[1..]);
  }

  lemma NormalizeThatApossOneAndADropped4(ws: seq<string>)
    requires ws == ["a", "half"]
    ensures DropArticles(ws) == ["half"]
  {
    NormalizeThatApossOneAndADropped5(ws[1..]);
  }

  lemma NormalizeThatApossOneAndADropped5(ws: seq<string>)
    requires ws == ["half"]
    ensures DropArticles(ws) == ["half"]
  {
  }

  lemma NormalizeThatApossOneAndAJoined1(ws: seq<string>)
    requires ws == ["that"]
    ensures Unwords(ws) == "that"
  {
  }

  lemma NormalizeThatApossOneAndAJoined2(ws: seq<string>)
    requires ws == ["that", "is"]
    ensures Unwords(ws) == "that is"
  {
    NormalizeThatApossOneAndAJoined1(ws[..1]);
    JoinWithAppend(" ", ws[..1], ws[1]);
    assert ws == ws[..1] + [ws[1]];
    assert "that" + " " + "is" == "that is";
  }

  lemma NormalizeThatApossOneAndAJoined3(ws: seq<string>)
    requires ws == ["that", "is", "1"]
    ensures Unwords(ws) == "that is 1"
  {
    NormalizeThatApossOneAndAJoined2(ws[..2]);
    JoinWithAppend(" ", ws[..2], ws[2]);
    assert ws == ws[..2] + [ws[2]];
    assert "that is" + " " + "1" == "that is 1";
  }

  lemma NormalizeThatApossOneAndAJoined4(ws: seq<string>)
    requires ws == ["that", "is", "1", "and"]
    ensures Unwords(ws) == "that is 1 and"
  {
    NormalizeThatApossOneAndAJoined3(ws[..3]);
    JoinWithAppend(" ", ws[..3], ws[3]);
    assert ws == ws[..3] + [ws[3]];
    assert "that is 1" + " " + "and" == "that is 1 and";
  }

  lemma NormalizeThatApossOneAndAJoined5(ws: seq<string>)
    requires ws == ["that", "is", "1", "and", "half"]
    ensures Unwords(ws) == "that is 1 and half"
  {
    NormalizeThatApossOneAndAJoined4(ws[..4]);
    JoinWithAppend(" ", ws[..4], ws[4]);
    assert ws == ws[..4] + [ws[4]];
    assert "that is 1 and" + " " + "half" == "that is 1 and half";
  }

  lemma NormalizeThatApossOneAndADigitWords(ws: seq<string>)
    requires ws == ["that", "is", "one", "and", "a", "half"]
    ensures DigitWords(ws) == ["that", "is", "1", "and", "a", "half"]
  {
    NormalizeThatApossOneAndALowered(ws);
    NormalizeThatApossOneAndAReadings(true);
    NormalizeThatApossOneAndADigitize0(ws, [OtherWord, OtherWord, UnitWord(1), AndWord, OtherWord, OtherWord]);
    NormalizeThatApossOneAndARendered([Plain("that"), Plain("is"), Number(1), Plain("and"), Plain("a"), Plain("half")]);
  }

  /** test/test_parse.py:893-894 */
  lemma NormalizeThatApossOneAndA()
    ensures Normalize.Normalize("that's one and a half", true) == "that is 1 and half"
  {
    NormalizeThatApossOneAndAExpandedWords("that's one and a half");
    NormalizeThatApossOneAndADigitWords(["that", "is", "one", "and", "a", "half"]);
    NormalizeThatApossOneAndADropped0(["that", "is", "1", "and", "a", "half"]);
    NormalizeThatApossOneAndAJoined5(["that", "is", "1", "and", "half"]);
    NormalizeByWords("that's one and a half", true);
  }

  lemma NormalizeAinApostLowered(ws: seq<string>)
    requires ws == ["is", "not"]
    ensures MapLower(ws) == ["is", "not"]
  {
    forall i | 0 <= i < 2
      ensures Lower(ws[i]) == ["is", "not"][i]
    {
    }
  }

  lemma NormalizeAinApostReadings0(ws: seq<string>, ts: seq<Token>, shortScale: bool)
    requires ws == ["is", "not"]
    requires ts == [OtherWord, OtherWord]
    ensures Tokens(ws, shortScale) == ts
  {
    forall i | 0 <= i < 2
      ensures Classify(ws[i], shortScale) == ts[i]
    {
      if i == 0 { ReadIs(shortScale); }
      else if i == 1 { ReadNot(shortScale); }
    }
    TokensOfReadings(ws, ts, shortScale);
  }

  lemma NormalizeAinApostReadings(shortScale: bool)
    ensures Tokens(["is", "not"], shortScale) == [OtherWord, OtherWord]
  {
    NormalizeAinApostReadings0(["is", "not"], [OtherWord, OtherWord], shortScale);
  }

  lemma NormalizeAinApostDigitize0(ws: seq<string>, ts: seq<Token>)
    requires ws == ["is", "not"]
    requires ts == [OtherWord, OtherWord]
    ensures Digitize(ws, ts, None, None) == [Plain("is"), Plain("not")]
  {
    NormalizeAinApostDigitize1(ws[1..], ts[1..]);
  }

  lemma NormalizeAinApostDigitize1(ws: seq<string>, ts: seq<Token>)
    requires ws == ["not"]
    requires ts == [OtherWord]
    ensures Digitize(ws, ts, None, None) == [Plain("not")]
  {
  }

  lemma NormalizeAinApostRendered(ps: seq<Piece>)
    requires ps == [Plain("is"), Plain("not")]
    ensures Render(ps) == ["is", "not"]
  {
    forall i | 0 <= i < 2
      ensures RenderPiece(ps[i]) == ["is", "not"][i]
    {
    }
  }

  lemma NormalizeAinApostDropped0(ws: seq<string>)
    requires ws == ["is", "not"]
    ensures DropArticles(ws) == ["is", "not"]
  {
    NormalizeAinApostDropped1(ws[1..]);
  }

  lemma NormalizeAinApostDropped1(ws: seq<string>)
    requires ws == ["not"]
    ensures DropArticles(ws) == ["not"]
  {
  }

  lemma NormalizeAinApostJoined1(ws: seq<string>)
    requires ws == ["is"]
    ensures Unwords(ws) == "is"
  {
  }

  lemma NormalizeAinApostJoined2(ws: seq<string>)
    requires ws == ["is", "not"]
    ensures Unwords(ws) == "is not"
  {
    NormalizeAinApostJoined1(ws[..1]);
    JoinWithAppend(" ", ws[..1], ws[1]);
    assert ws == ws[..1] + [ws[1]];
    assert "is" + " " + "not" == "is not";
  }

  lemma NormalizeAinApostDigitWords(ws: seq<string>)
    requires ws == ["is", "not"]
    ensures DigitWords(ws) == ["is", "not"]
  {
    NormalizeAinApostLowered(ws);
    NormalizeAinApostReadings(true);
    NormalizeAinApostDigitize0(ws, [OtherWord, OtherWord]);
    NormalizeAinApostRendered([Plain("is"), Plain("not")]);
  }

  /** test/test_parse.py:940 */
  lemma NormalizeAinApost()
    ensures Normalize.Normalize("ain't", true) == "is not"
  {
    NormalizeAinApostExpandedWords("ain't");
    NormalizeAinApostDigitWords(["is", "not"]);
    NormalizeAinApostDropped0(["is", "not"]);
    NormalizeAinApostJoined2(["is", "not"]);
    NormalizeByWords("ain't", true);
  }

  lemma NormalizeGonnaLowered(ws: seq<string>)
    requires ws == ["going", "to"]
    ensures MapLower(ws) == ["going", "to"]
  {
    forall i | 0 <= i < 2
      ensures Lower(ws[i]) == ["going", "to"][i]
    {
    }
  }

  lemma NormalizeGonnaReadings0(ws: seq<string>, ts: seq<Token>, shortScale: bool)
    requires ws == ["going", "to"]
    requires ts == [OtherWord, OtherWord]
    ensures Tokens(ws, shortScale) == ts
  {
    forall i | 0 <= i < 2
      ensures Classify(ws[i], shortScale) == ts[i]
    {
      if i == 0 { ReadGoing(shortScale); }
      else if i == 1 { ReadTo(shortScale); }
    }
    TokensOfReadings(ws, ts, shortScale);
  }

  lemma NormalizeGonnaReadings(shortScale: bool)
    ensures Tokens(["going", "to"], shortScale) == [OtherWord, OtherWord]
  {
    NormalizeGonnaReadings0(["going", "to"], [OtherWord, OtherWord], shortScale);
  }

  lemma NormalizeGonnaDigitize0(ws: seq<string>, ts: seq<Token>)
    requires ws == ["going", "to"]
    requires ts == [OtherWord, OtherWord]
    ensures Digitize(ws, ts, None, None) == [Plain("going"), Plain("to")]
  {
    NormalizeGonnaDigitize1(ws[1..], ts[1..]);
  }

  lemma NormalizeGonnaDigitize1(ws: seq<string>, ts: seq<Token>)
    requires ws == ["to"]
    requires ts == [OtherWord]
    ensures Digitize(ws, ts, None, None) == [Plain("to")]
  {
  }

  lemma NormalizeGonnaRendered(ps: seq<Piece>)
    requires ps == [Plain("going"), Plain("to")]
    ensures Render(ps) == ["going", "to"]
  {
    forall i | 0 <= i < 2
      ensures RenderPiece(ps[i]) == ["going", "to"][i]
    {
    }
  }

  lemma NormalizeGonnaDropped0(ws: seq<string>)
    requires ws == ["going", "to"]
    ensures DropArticles(ws) == ["going", "to"]
  {
    NormalizeGonnaDropped1(ws[1..]);
  }

  lemma NormalizeGonnaDropped1(ws: seq<string>)
    requires ws == ["to"]
    ensures DropArticles(ws) == ["to"]
  {
  }

  lemma NormalizeGonnaJoined1(ws: seq<string>)
    requires ws == ["going"]
    ensures Unwords(ws) == "going"
  {
  }

  lemma NormalizeGonnaJoined2(ws: seq<string>)
    requires ws == ["going", "to"]
    ensures Unwords(ws) == "going to"
  {
    NormalizeGonnaJoined1(ws[..1]);
    JoinWithAppend(" ", ws[..1], ws[1]);
    assert ws == ws[..1] + [ws[1]];
    assert "going" + " " + "to" == "going to";
  }

  lemma NormalizeGonnaDigitWords(ws: seq<string>)
    requires ws == ["going", "to"]
    ensures DigitWords(ws) == ["going", "to"]
  {
    NormalizeGonnaLowered(ws);
    NormalizeGonnaReadings(true);
    NormalizeGonnaDigitize0(ws, [OtherWord, OtherWord]);
    NormalizeGonnaRendered([Plain("going"), Plain("to")]);
  }

  /** test/test_parse.py:948 */
  lemma NormalizeGonna()
    ensures Normalize.Normalize("gonna", true) == "going to"
  {
    NormalizeGonnaExpandedWords("gonna");
    NormalizeGonnaDigitWords(["going", "to"]);
    NormalizeGonnaDropped0(["going", "to"]);
    NormalizeGonnaJoined2(["going", "to"]);
    NormalizeByWords("gonna", true);
  }

  lemma NormalizeGottaLowered(ws: seq<string>)
    requires ws == ["got", "to"]
    ensures MapLower(ws) == ["got", "to"]
  {
    forall i | 0 <= i < 2
      ensures Lower(ws[i]) == ["got", "to"][i]
    {
    }
  }

  lemma NormalizeGottaReadings0(ws: seq<string>, ts: seq<Token>, shortScale: bool)
    requires ws == ["got", "to"]
    requires ts == [OtherWord, OtherWord]
    ensures Tokens(ws, shortScale) == ts
  {
    forall i | 0 <= i < 2
      ensures Classify(ws[i], shortScale) == ts[i]
    {
      if i == 0 { ReadGot(shortScale); }
      else if i == 1 { ReadTo(shortScale); }
    }
    TokensOfReadings(ws, ts, shortScale);
  }

  lemma NormalizeGottaReadings(shortScale: bool)
    ensures Tokens(["got", "to"], shortScale) == [OtherWord, OtherWord]
  {
    NormalizeGottaReadings0(["got", "to"], [OtherWord, OtherWord], shortScale);
  }

  lemma NormalizeGottaDigitize0(ws: seq<string>, ts: seq<Token>)
    requires ws == ["got", "to"]
    requires ts == [OtherWord, OtherWord]
    ensures Digitize(ws, ts, None, None) == [Plain("got"), Plain("to")]
  {
    NormalizeGottaDigitize1(ws[1..], ts[1..]);
  }

  lemma NormalizeGottaDigitize1(ws: seq<string>, ts: seq<Token>)
    requires ws == ["to"]
    requires ts == [OtherWord]
    ensures Digitize(ws, ts, None, None) == [Plain("to")]
  {
  }

  lemma NormalizeGottaRendered(ps: seq<Piece>)
    requires ps == [Plain("got"), Plain("to")]
    ensures Render(ps) == ["got", "to"]
  {
    forall i | 0 <= i < 2
      ensures RenderPiece(ps[i]) == ["got", "to"][i]
    {
    }
  }

  lemma NormalizeGottaDropped0(ws: seq<string>)
    requires ws == ["got", "to"]
    ensures DropArticles(ws) == ["got", "to"]
  {
    NormalizeGottaDropped1(ws[1..]);
  }

  lemma NormalizeGottaDropped1(ws: seq<string>)
    requires ws == ["to"]
    ensures DropArticles(ws) == ["to"]
  {
  }

  lemma NormalizeGottaJoined1(ws: seq<string>)
    requires ws == ["got"]
    ensures Unwords(ws) == "got"
  {
  }

  lemma NormalizeGottaJoined2(ws: seq<string>)
    requires ws == ["got", "to"]
    ensures Unwords(ws) == "got to"
  {
    NormalizeGottaJoined1(ws[..1]);
    JoinWithAppend(" ", ws[..1], ws[1]);
    assert ws == ws[..1] + [ws[1]];
    assert "got" + " " + "to" == "got to";
  }

  lemma NormalizeGottaDigitWords(ws: seq<string>)
    requires ws == ["got", "to"]
    ensures DigitWords(ws) == ["got", "to"]
  {
    NormalizeGottaLowered(ws);
    NormalizeGottaReadings(true);
    NormalizeGottaDigitize0(ws, [OtherWord, OtherWord]);
    NormalizeGottaRendered([Plain("got"), Plain("to")]);
  }

  /** test/test_parse.py:949 */
  lemma NormalizeGotta()
    ensures Normalize.Normalize("gotta", true) == "got to"
  {
    NormalizeGottaExpandedWords("gotta");
    NormalizeGottaDigitWords(["got", "to"]);
    NormalizeGottaDropped0(["got", "to"]);
    NormalizeGottaJoined2(["got", "to"]);
    NormalizeByWords("gotta", true);
  }

  lemma NormalizeHadnApostHaveLowered(ws: seq<string>)
    requires ws == ["had", "not", "have"]
    ensures MapLower(ws) == ["had", "not", "have"]
  {
    forall i | 0 <= i < 3
      ensures Lower(ws[i]) == ["had", "not", "have"][i]
    {
    }
  }

  lemma NormalizeHadnApostHaveReadings0(ws: seq<string>, ts: seq<Token>, shortScale: bool)
    requires ws == ["had", "not", "have"]
    requires ts == [OtherWord, OtherWord, OtherWord]
    ensures Tokens(ws, shortScale) == ts
  {
    forall i | 0 <= i < 3
      ensures Classify(ws[i], shortScale) == ts[i]
    {
      if i == 0 { ReadHad(shortScale); }
      else if i == 1 { ReadNot(shortScale); }
      else if i == 2 { ReadHave(shortScale); }
    }
    TokensOfReadings(ws, ts, shortScale);
  }

  lemma NormalizeHadnApostHaveReadings(shortScale: bool)
    ensures Tokens(["had", "not", "have"], shortScale) == [OtherWord, OtherWord, OtherWord]
  {
    NormalizeHadnApostHaveReadings0(["had", "not", "have"], [OtherWord, OtherWord, OtherWord], shortScale);
  }

  lemma NormalizeHadnApostHaveDigitize0(ws: seq<string>, ts: seq<Token>)
    requires ws == ["had", "not", "have"]
    requires ts == [OtherWord, OtherWord, OtherWord]
    ensures Digitize(ws, ts, None, None) == [Plain("had"), Plain("not"), Plain("have")]
  {
    NormalizeHadnApostHaveDigitize1(ws[1..], ts[1..]);
  }

  lemma NormalizeHadnApostHaveDigitize1(ws: seq<string>, ts: seq<Token>)
    requires ws == ["not", "have"]
    requires ts == [OtherWord, OtherWord]
    ensures Digitize(ws, ts, None, None) == [Plain("not"), Plain("have")]
  {
    NormalizeHadnApostHaveDigitize2(ws[1..], ts[1..]);
  }

  lemma NormalizeHadnApostHaveDigitize2(ws: seq<string>, ts: seq<Token>)
    requires ws == ["have"]
    requires ts == [OtherWord]
    ensures Digitize(ws, ts, None, None) == [Plain("have")]
  {
  }

  lemma NormalizeHadnApostHaveRendered(ps: seq<Piece>)
    requires ps == [Plain("had"), Plain("not"), Plain("have")]
    ensures Render(ps) == ["had", "not", "have"]
  {
    forall i | 0 <= i < 3
      ensures RenderPiece(ps[i]) == ["had", "not", "have"][i]
    {
    }
  }

  lemma NormalizeHadnApostHaveDropped0(ws: seq<string>)
    requires ws == ["had", "not", "have"]
    ensures DropArticles(ws) == ["had", "not", "have"]
  {
    NormalizeHadnApostHaveDropped1(ws[1..]);
  }

  lemma NormalizeHadnApostHaveDropped1(ws: seq<string>)
    requires ws == ["not", "have"]
    ensures DropArticles(ws) == ["not", "have"]
  {
    NormalizeHadnApostHaveDropped2(ws[1..]);
  }

  lemma NormalizeHadnApostHaveDropped2(ws: seq<string>)
    requires ws == ["have"]
    ensures DropArticles(ws) == ["have"]
  {
  }

  lemma NormalizeHadnApostHaveJoined1(ws: seq<string>)
    requires ws == ["had"]
    ensures Unwords(ws) == "had"
  {
  }

  lemma NormalizeHadnApostHaveJoined2(ws: seq<string>)
    requires ws == ["had", "not"]
    ensures Unwords(ws) == "had not"
  {
    NormalizeHadnApostHaveJoined1(ws[..1]);
    JoinWithAppend(" ", ws[..1], ws[1]);
    assert ws == ws[..1] + [ws[1]];
    assert "had" + " " + "not" == "had not";
  }

  lemma NormalizeHadnApostHaveJoined3(ws: seq<string>)
    requires ws == ["had", "not", "have"]
    ensures Unwords(ws) == "had not have"
  {
    NormalizeHadnApostHaveJoined2(ws[..2]);
    JoinWithAppend(" ", ws[..2], ws[2]);
    assert ws == ws[..2] + [ws[2]];
    assert "had not" + " " + "have" == "had not have";
  }

  lemma NormalizeHadnApostHaveDigitWords(ws: seq<string>)
    requires ws == ["had", "not", "have"]
    ensures DigitWords(ws) == ["had", "not", "have"]
  {
    NormalizeHadnApostHaveLowered(ws);
    NormalizeHadnApostHaveReadings(true);
    NormalizeHadnApostHaveDigitize0(ws, [OtherWord, OtherWord, OtherWord]);
    NormalizeHadnApostHaveRendered([Plain("had"), Plain("not"), Plain("have")]);
  }

  /** test/test_parse.py:951 */
  lemma NormalizeHadnApostHave()
    ensures Normalize.Normalize("hadn't have", true) == "had not have"
  {
    NormalizeHadnApostHaveExpandedWords("hadn't have");
    NormalizeHadnApostHaveDigitWords(["had", "not", "have"]);
    NormalizeHadnApostHaveDropped0(["had", "not", "have"]);
    NormalizeHadnApostHaveJoined3(["had", "not", "have"]);
    NormalizeByWords("hadn't have", true);
  }

  lemma NormalizeIHavenApostLowered(ws: seq<string>)
    requires ws == ["I", "have", "not"]
    ensures MapLower(ws) == ["i", "have", "not"]
  {
    forall i | 0 <= i < 3
      ensures Lower(ws[i]) == ["i", "have", "not"][i]
    {
    }
  }

  lemma NormalizeIHavenApostReadings0(ws: seq<string>, ts: seq<Token>, shortScale: bool)
    requires ws == ["i", "have", "not"]
    requires ts == [OtherWord, OtherWord, OtherWord]
    ensures Tokens(ws, shortScale) == ts
  {
    forall i | 0 <= i < 3
      ensures Classify(ws[i], shortScale) == ts[i]
    {
      if i == 0 { ReadI(shortScale); }
      else if i == 1 { ReadHave(shortScale); }
      else if i == 2 { ReadNot(shortScale); }
    }
    TokensOfReadings(ws, ts, shortScale);
  }

  lemma NormalizeIHavenApostReadings(shortScale: bool)
    ensures Tokens(["i", "have", "not"], shortScale) == [OtherWord, OtherWord, OtherWord]
  {
    NormalizeIHavenApostReadings0(["i", "have", "not"], [OtherWord, OtherWord, OtherWord], shortScale);
  }

  lemma NormalizeIHavenApostDigitize0(ws: seq<string>, ts: seq<Token>)
    requires ws == ["I", "have", "not"]
    requires ts == [OtherWord, OtherWord, OtherWord]
    ensures Digitize(ws, ts, None, None) == [Plain("I"), Plain("have"), Plain("not")]
  {
    NormalizeIHavenApostDigitize1(ws[1..], ts[1..]);
  }

  lemma NormalizeIHavenApostDigitize1(ws: seq<string>, ts: seq<Token>)
    requires ws == ["have", "not"]
    requires ts == [OtherWord, OtherWord]
    ensures Digitize(ws, ts, None, None) == [Plain("have"), Plain("not")]
  {
    NormalizeIHavenApostDigitize2(ws[1..], ts[1..]);
  }

  lemma NormalizeIHavenApostDigitize2(ws: seq<string>, ts: seq<Token>)
    requires ws == ["not"]
    requires ts == [OtherWord]
    ensures Digitize(ws, ts, None, None) == [Plain("not")]
  {
  }

  lemma NormalizeIHavenApostRendered(ps: seq<Piece>)
    requires ps == [Plain("I"), Plain("have"), Plain("not")]
    ensures Render(ps) == ["I", "have", "not"]
  {
    forall i | 0 <= i < 3
      ensures RenderPiece(ps[i]) == ["I", "have", "not"][i]
    {
    }
  }

  lemma NormalizeIHavenApostDropped0(ws: seq<string>)
    requires ws == ["I", "have", "not"]
    ensures DropArticles(ws) == ["I", "have", "not"]
  {
    NormalizeIHavenApostDropped1(ws[1..]);
  }

  lemma NormalizeIHavenApostDropped1(ws: seq<string>)
    requires ws == ["have", "not"]
    ensures DropArticles(ws) == ["have", "not"]
  {
    NormalizeIHavenApostDropped2(ws[1..]);
  }

  lemma NormalizeIHavenApostDropped2(ws: seq<string>)
    requires ws == ["not"]
    ensures DropArticles(ws) == ["not"]
  {
  }

  lemma NormalizeIHavenApostJoined1(ws: seq<string>)
    requires ws == ["I"]
    ensures Unwords(ws) == "I"
  {
  }

  lemma NormalizeIHavenApostJoined2(ws: seq<string>)
    requires ws == ["I", "have"]
    ensures Unwords(ws) == "I have"
  {
    NormalizeIHavenApostJoined1(ws[..1]);
    JoinWithAppend(" ", ws[..1], ws[1]);
    assert ws == ws[..1] + [ws[1]];
    assert "I" + " " + "have" == "I have";
  }

  lemma NormalizeIHavenApostJoined3(ws: seq<string>)
    requires ws == ["I", "have", "not"]
    ensures Unwords(ws) == "I have not"
  {
    NormalizeIHavenApostJoined2(ws[..2]);
    JoinWithAppend(" ", ws[..2], ws[2]);
    assert ws == ws[..2] + [ws[2]];
    assert "I have" + " " + "not" == "I have not";
  }

  lemma NormalizeIHavenApostDigitWords(ws: seq<string>)
    requires ws == ["I", "have", "not"]
    ensures DigitWords(ws) == ["I", "have", "not"]
  {
    NormalizeIHavenApostLowered(ws);
    NormalizeIHavenApostReadings(true);
    NormalizeIHavenApostDigitize0(ws, [OtherWord, OtherWord, OtherWord]);
    NormalizeIHavenApostRendered([Plain("I"), Plain("have"), Plain("not")]);
  }

  /** test/test_parse.py:969 */
  lemma NormalizeIHavenApost()
    ensures Normalize.Normalize("I haven't", true) == "I have not"
  {
    NormalizeIHavenApostExpandedWords("I haven't");
    NormalizeIHavenApostDigitWords(["I", "have", "not"]);
    NormalizeIHavenApostDropped0(["I", "have", "not"]);
    NormalizeIHavenApostJoined3(["I", "have", "not"]);
    NormalizeByWords("I haven't", true);
  }

  lemma NormalizeThatApossLowered(ws: seq<string>)
    requires ws == ["that", "is"]
    ensures MapLower(ws) == ["that", "is"]
  {
    forall i | 0 <= i < 2
      ensures Lower(ws[i]) == ["that", "is"][i]
    {
    }
  }

  lemma NormalizeThatApossReadings0(ws: seq<string>, ts: seq<Token>, shortScale: bool)
    requires ws == ["that", "is"]
    requires ts == [OtherWord, OtherWord]
    ensures Tokens(ws, shortScale) == ts
  {
    forall i | 0 <= i < 2
      ensures Classify(ws[i], shortScale) == ts[i]
    {
      if i == 0 { ReadThat(shortScale); }
      else if i == 1 { ReadIs(shortScale); }
    }
    TokensOfReadings(ws, ts, shortScale);
  }

  lemma NormalizeThatApossReadings(shortScale: bool)
    ensures Tokens(["that", "is"], shortScale) == [OtherWord, OtherWord]
  {
    NormalizeThatApossReadings0(["that", "is"], [OtherWord, OtherWord], shortScale);
  }

  lemma NormalizeThatApossDigitize0(ws: seq<string>, ts: seq<Token>)
    requires ws == ["that", "is"]
    requires ts == [OtherWord, OtherWord]
    ensures Digitize(ws, ts, None, None) == [Plain("that"), Plain("is")]
  {
    NormalizeThatApossDigitize1(ws[1..], ts[1..]);
  }

  lemma NormalizeThatApossDigitize1(ws: seq<string>, ts: seq<Token>)
    requires ws == ["is"]
    requires ts == [OtherWord]
    ensures Digitize(ws, ts, None, None) == [Plain("is")]
  {
  }

  lemma NormalizeThatApossRendered(ps: seq<Piece>)
    requires ps == [Plain("that"), Plain("is")]
    ensures Render(ps) == ["that", "is"]
  {
    forall i | 0 <= i < 2
      ensures RenderPiece(ps[i]) == ["that", "is"][i]
    {
    }
  }

  lemma NormalizeThatApossDropped0(ws: seq<string>)
    requires ws == ["that", "is"]
    ensures DropArticles(ws) == ["that", "is"]
  {
    NormalizeThatApossDropped1(ws[1..]);
  }

  lemma NormalizeThatApossDropped1(ws: seq<string>)
    requires ws == ["is"]
    ensures DropArticles(ws) == ["is"]
  {
  }

  lemma NormalizeThatApossJoined1(ws: seq<string>)
    requires ws == ["that"]
    ensures Unwords(ws) == "that"
  {
  }

  lemma NormalizeThatApossJoined2(ws: seq<string>)
    requires ws == ["that", "is"]
    ensures Unwords(ws) == "that is"
  {
    NormalizeThatApossJoined1(ws[..1]);
    JoinWithAppend(" ", ws[..1], ws[1]);
    assert ws == ws[..1] + [ws[1]];
    assert "that" + " " + "is" == "that is";
  }

  lemma NormalizeThatApossDigitWords(ws: seq<string>)
    requires ws == ["that", "is"]
    ensures DigitWords(ws) == ["that", "is"]
  {
    NormalizeThatApossLowered(ws);
    NormalizeThatApossReadings(true);
    NormalizeThatApossDigitize0(ws, [OtherWord, OtherWord]);
    NormalizeThatApossRendered([Plain("that"), Plain("is")]);
  }

  /** test/test_parse.py:1002 */
  lemma NormalizeThatAposs()
    ensures Normalize.Normalize("that's", true) == "that is"
  {
    NormalizeThatApossExpandedWords("that's");
    NormalizeThatApossDigitWords(["that", "is"]);
    NormalizeThatApossDropped0(["that", "is"]);
    NormalizeThatApossJoined2(["that", "is"]);
    NormalizeByWords("that's", true);
  }

  lemma NormalizeTheyWonApostHaveLowered(ws: seq<string>)
    requires ws == ["they", "will", "not", "have"]
    ensures MapLower(ws) == ["they", "will", "not", "have"]
  {
    forall i | 0 <= i < 4
      ensures Lower(ws[i]) == ["they", "will", "not", "have"][i]
    {
    }
  }

  lemma NormalizeTheyWonApostHaveReadings0(ws: seq<string>, ts: seq<Token>, shortScale: bool)
    requires ws == ["they", "will", "not", "have"]
    requires ts == [OtherWord, OtherWord, OtherWord, OtherWord]
    ensures Tokens(ws, shortScale) == ts
  {
    forall i | 0 <= i < 4
      ensures Classify(ws[i], shortScale) == ts[i]
    {
      if i == 0 { ReadThey(shortScale); }
      else if i == 1 { ReadWill(shortScale); }
      else if i == 2 { ReadNot(shortScale); }
      else if i == 3 { ReadHave(shortScale); }
    }
    TokensOfReadings(ws, ts, shortScale);
  }

  lemma NormalizeTheyWonApostHaveReadings(shortScale: bool)
    ensures Tokens(["they", "will", "not", "have"], shortScale) == [OtherWord, OtherWord, OtherWord, OtherWord]
  {
    NormalizeTheyWonApostHaveReadings0(["they", "will", "not", "have"], [OtherWord, OtherWord, OtherWord, OtherWord], shortScale);
  }

  lemma NormalizeTheyWonApostHaveDigitize0(ws: seq<string>, ts: seq<Token>)
    requires ws == ["they", "will", "not", "have"]
    requires ts == [OtherWord, OtherWord, OtherWord, OtherWord]
    ensures Digitize(ws, ts, None, None) == [Plain("they"), Plain("will"), Plain("not"), Plain("have")]
  {
    NormalizeTheyWonApostHaveDigitize1(ws[1..], ts[1..]);
  }

  lemma NormalizeTheyWonApostHaveDigitize1(ws: seq<string>, ts: seq<Token>)
    requires ws == ["will", "not", "have"]
    requires ts == [OtherWord, OtherWord, OtherWord]
    ensures Digitize(ws, ts, None, None) == [Plain("will"), Plain("not"), Plain("have")]
  {
    NormalizeTheyWonApostHaveDigitize2(ws[1..], ts[1..]);
  }

  lemma NormalizeTheyWonApostHaveDigitize2(ws: seq<string>, ts: seq<Token>)
    requires ws == ["not", "have"]
    requires ts == [OtherWord, OtherWord]
    ensures Digitize(ws, ts, None, None) == [Plain("not"), Plain("have")]
  {
    NormalizeTheyWonApostHaveDigitize3(ws[1..], ts[1..]);
  }

  lemma NormalizeTheyWonApostHaveDigitize3(ws: seq<string>, ts: seq<Token>)
    requires ws == ["have"]
    requires ts == [OtherWord]
    ensures Digitize(ws, ts, None, None) == [Plain("have")]
  {
  }

  lemma NormalizeTheyWonApostHaveRendered(ps: seq<Piece>)
    requires ps == [Plain("they"), Plain("will"), Plain("not"), Plain("have")]
    ensures Render(ps) == ["they", "will", "not", "have"]
  {
    forall i | 0 <= i < 4
      ensures RenderPiece(ps[i]) == ["they", "will", "not", "have"][i]
    {
    }
  }

  lemma NormalizeTheyWonApostHaveDropped0(ws: seq<string>)
    requires ws == ["they", "will", "not", "have"]
    ensures DropArticles(ws) == ["they", "will", "not", "have"]
  {
    NormalizeTheyWonApostHaveDropped1(ws[1..]);
  }

  lemma NormalizeTheyWonApostHaveDropped1(ws: seq<string>)
    requires ws == ["will", "not", "have"]
    ensures DropArticles(ws) == ["will", "not", "have"]
  {
    NormalizeTheyWonApostHaveDropped2(ws[1..]);
  }

  lemma NormalizeTheyWonApostHaveDropped2(ws: seq<string>)
    requires ws == ["not", "have"]
    ensures DropArticles(ws) == ["not", "have"]
  {
    NormalizeTheyWonApostHaveDropped3(ws[1..]);
  }

  lemma NormalizeTheyWonApostHaveDropped3(ws: seq<string>)
    requires ws == ["have"]
    ensures DropArticles(ws) == ["have"]
  {
  }

  lemma NormalizeTheyWonApostHaveJoined1(ws: seq<string>)
    requires ws == ["they"]
    ensures Unwords(ws) == "they"
  {
  }

  lemma NormalizeTheyWonApostHaveJoined2(ws: seq<string>)
    requires ws == ["they", "will"]
    ensures Unwords(ws) == "they will"
  {
    NormalizeTheyWonApostHaveJoined1(ws[..1]);
    JoinWithAppend(" ", ws[..1], ws[1]);
    assert ws == ws[..1] + [ws[1]];
    assert "they" + " " + "will" == "they will";
  }

  lemma NormalizeTheyWonApostHaveJoined3(ws: seq<string>)
    requires ws == ["they", "will", "not"]
    ensures Unwords(ws) == "they will not"
  {
    NormalizeTheyWonApostHaveJoined2(ws[..2]);
    JoinWithAppend(" ", ws[..2], ws[2]);
    assert ws == ws[..2] + [ws[2]];
    assert "they will" + " " + "not" == "they will not";
  }

  lemma NormalizeTheyWonApostHaveJoined4(ws: seq<string>)
    requires ws == ["they", "will", "not", "have"]
    ensures Unwords(ws) == "they will not have"
  {
    NormalizeTheyWonApostHaveJoined3(ws[..3]);
    JoinWithAppend(" ", ws[..3], ws[3]);
    assert ws == ws[..3] + [ws[3]];
    assert "they will not" + " " + "have" == "they will not have";
  }

  lemma NormalizeTheyWonApostHaveDigitWords(ws: seq<string>)
    requires ws == ["they", "will", "not", "have"]
    ensures DigitWords(ws) == ["they", "will", "not", "have"]
  {
    NormalizeTheyWonApostHaveLowered(ws);
    NormalizeTheyWonApostHaveReadings(true);
    NormalizeTheyWonApostHaveDigitize0(ws, [OtherWord, OtherWord, OtherWord, OtherWord]);
    NormalizeTheyWonApostHaveRendered([Plain("they"), Plain("will"), Plain("not"), Plain("have")]);
  }

  /** test/test_parse.py:1013 */
  lemma NormalizeTheyWonApostHave()
    ensures Normalize.Normalize("they won't have", true) == "they will not have"
  {
    NormalizeTheyWonApostHaveExpandedWords("they won't have");
    NormalizeTheyWonApostHaveDigitWords(["they", "will", "not", "have"]);
    NormalizeTheyWonApostHaveDropped0(["they", "will", "not", "have"]);
    NormalizeTheyWonApostHaveJoined4(["they", "will", "not", "have"]);
    NormalizeByWords("they won't have", true);
  }

  lemma NormalizeWhatsLowered(ws: seq<string>)
    requires ws == ["what", "is"]
    ensures MapLower(ws) == ["what", "is"]
  {
    forall i | 0 <= i < 2
      ensures Lower(ws[i]) == ["what", "is"][i]
    {
    }
  }

  lemma NormalizeWhatsReadings0(ws: seq<string>, ts: seq<Token>, shortScale: bool)
    requires ws == ["what", "is"]
    requires ts == [OtherWord, OtherWord]
    ensures Tokens(ws, shortScale) == ts
  {
    forall i | 0 <= i < 2
      ensures Classify(ws[i], shortScale) == ts[i]
    {
      if i == 0 { ReadWhat(shortScale); }
      else if i == 1 { ReadIs(shortScale); }
    }
    TokensOfReadings(ws, ts, shortScale);
  }

  lemma NormalizeWhatsReadings(shortScale: bool)
    ensures Tokens(["what", "is"], shortScale) == [OtherWord, OtherWord]
  {
    NormalizeWhatsReadings0(["what", "is"], [OtherWord, OtherWord], shortScale);
  }

  lemma NormalizeWhatsDigitize0(ws: seq<string>, ts: seq<Token>)
    requires ws == ["what", "is"]
    requires ts == [OtherWord, OtherWord]
    ensures Digitize(ws, ts, None, None) == [Plain("what"), Plain("is")]
  {
    NormalizeWhatsDigitize1(ws[1..], ts[1..]);
  }

  lemma NormalizeWhatsDigitize1(ws: seq<string>, ts: seq<Token>)
    requires ws == ["is"]
    requires ts == [OtherWord]
    ensures Digitize(ws, ts, None, None) == [Plain("is")]
  {
  }

  lemma NormalizeWhatsRendered(ps: seq<Piece>)
    requires ps == [Plain("what"), Plain("is")]
    ensures Render(ps) == ["what", "is"]
  {
    forall i | 0 <= i < 2
      ensures RenderPiece(ps[i]) == ["what", "is"][i]
    {
    }
  }

  lemma NormalizeWhatsDropped0(ws: seq<string>)
    requires ws == ["what", "is"]
    ensures DropArticles(ws) == ["what", "is"]
  {
    NormalizeWhatsDropped1(ws[1..]);
  }

  lemma NormalizeWhatsDropped1(ws: seq<string>)
    requires ws == ["is"]
    ensures DropArticles(ws) == ["is"]
  {
  }

  lemma NormalizeWhatsJoined1(ws: seq<string>)
    requires ws == ["what"]
    ensures Unwords(ws) == "what"
  {
  }

  lemma NormalizeWhatsJoined2(ws: seq<string>)
    requires ws == ["what", "is"]
    ensures Unwords(ws) == "what is"
  {
    NormalizeWhatsJoined1(ws[..1]);
    JoinWithAppend(" ", ws[..1], ws[1]);
    assert ws == ws[..1] + [ws[1]];
    assert "what" + " " + "is" == "what is";
  }

  lemma NormalizeWhatsDigitWords(ws: seq<string>)
    requires ws == ["what", "is"]
    ensures DigitWords(ws) == ["what", "is"]
  {
    NormalizeWhatsLowered(ws);
    NormalizeWhatsReadings(true);
    NormalizeWhatsDigitize0(ws, [OtherWord, OtherWord]);
    NormalizeWhatsRendered([Plain("what"), Plain("is")]);
  }

  /** test/test_parse.py:1032 */
  lemma NormalizeWhats()
    ensures Normalize.Normalize("whats", true) == "what is"
  {
    NormalizeWhatsExpandedWords("whats");
    NormalizeWhatsDigitWords(["what", "is"]);
    NormalizeWhatsDropped0(["what", "is"]);
    NormalizeWhatsJoined2(["what", "is"]);
    NormalizeByWords("whats", true);
  }

  lemma NormalizeWhoAposdAposveLowered(ws: seq<string>)
    requires ws == ["who", "would", "have"]
    ensures MapLower(ws) == ["who", "would", "have"]
  {
    forall i | 0 <= i < 3
      ensures Lower(ws[i]) == ["who", "would", "have"][i]
    {
    }
  }

  lemma NormalizeWhoAposdAposveReadings0(ws: seq<string>, ts: seq<Token>, shortScale: bool)
    requires ws == ["who", "would", "have"]
    requires ts == [OtherWord, OtherWord, OtherWord]
    ensures Tokens(ws, shortScale) == ts
  {
    forall i | 0 <= i < 3
      ensures Classify(ws[i], shortScale) == ts[i]
    {
      if i == 0 { ReadWho(shortScale); }
      else if i == 1 { ReadWould(shortScale); }
      else if i == 2 { ReadHave(shortScale); }
    }
    TokensOfReadings(ws, ts, shortScale);
  }

  lemma NormalizeWhoAposdAposveReadings(shortScale: bool)
    ensures Tokens(["who", "would", "have"], shortScale) == [OtherWord, OtherWord, OtherWord]
  {
    NormalizeWhoAposdAposveReadings0(["who", "would", "have"], [OtherWord, OtherWord, OtherWord], shortScale);
  }

  lemma NormalizeWhoAposdAposveDigitize0(ws: seq<string>, ts: seq<Token>)
    requires ws == ["who", "would", "have"]
    requires ts == [OtherWord, OtherWord, OtherWord]
    ensures Digitize(ws, ts, None, None) == [Plain("who"), Plain("would"), Plain("have")]
  {
    NormalizeWhoAposdAposveDigitize1(ws[1..], ts[1..]);
  }

  lemma NormalizeWhoAposdAposveDigitize1(ws: seq<string>, ts: seq<Token>)
    requires ws == ["would", "have"]
    requires ts == [OtherWord, OtherWord]
    ensures Digitize(ws, ts, None, None) == [Plain("would"), Plain("have")]
  {
    NormalizeWhoAposdAposveDigitize2(ws[1..], ts[1..]);
  }

  lemma NormalizeWhoAposdAposveDigitize2(ws: seq<string>, ts: seq<Token>)
    requires ws == ["have"]
    requires ts == [OtherWord]
    ensures Digitize(ws, ts, None, None) == [Plain("have")]
  {
  }

  lemma NormalizeWhoAposdAposveRendered(ps: seq<Piece>)
    requires ps == [Plain("who"), Plain("would"), Plain("have")]
    ensures Render(ps) == ["who", "would", "have"]
  {
    forall i | 0 <= i < 3
      ensures RenderPiece(ps[i]) == ["who", "would", "have"][i]
    {
    }
  }

  lemma NormalizeWhoAposdAposveDropped0(ws: seq<string>)
    requires ws == ["who", "would", "have"]
    ensures DropArticles(ws) == ["who", "would", "have"]
  {
    NormalizeWhoAposdAposveDropped1(ws[1..]);
  }

  lemma NormalizeWhoAposdAposveDropped1(ws: seq<string>)
    requires ws == ["would", "have"]
    ensures DropArticles(ws) == ["would", "have"]
  {
    NormalizeWhoAposdAposveDropped2(ws[1..]);
  }

  lemma NormalizeWhoAposdAposveDropped2(ws: seq<string>)
    requires ws == ["have"]
    ensures DropArticles(ws) == ["have"]
  {
  }

  lemma NormalizeWhoAposdAposveJoined1(ws: seq<string>)
    requires ws == ["who"]
    ensures Unwords(ws) == "who"
  {
  }

  lemma NormalizeWhoAposdAposveJoined2(ws: seq<string>)
    requires ws == ["who", "would"]
    ensures Unwords(ws) == "who would"
  {
    NormalizeWhoAposdAposveJoined1(ws[..1]);
    JoinWithAppend(" ", ws[..1], ws[1]);
    assert ws == ws[..1] + [ws[1]];
    assert "who" + " " + "would" == "who would";
  }

  lemma NormalizeWhoAposdAposveJoined3(ws: seq<string>)
    requires ws == ["who", "would", "have"]
    ensures Unwords(ws) == "who would have"
  {
    NormalizeWhoAposdAposveJoined2(ws[..2]);
    JoinWithAppend(" ", ws[..2], ws[2]);
    assert ws == ws[..2] + [ws[2]];
    assert "who would" + " " + "have" == "who would have";
  }

  lemma NormalizeWhoAposdAposveDigitWords(ws: seq<string>)
    requires ws == ["who", "would", "have"]
    ensures DigitWords(ws) == ["who", "would", "have"]
  {
    NormalizeWhoAposdAposveLowered(ws);
    NormalizeWhoAposdAposveReadings(true);
    NormalizeWhoAposdAposveDigitize0(ws, [OtherWord, OtherWord, OtherWord]);
    NormalizeWhoAposdAposveRendered([Plain("who"), Plain("would"), Plain("have")]);
  }

  /** test/test_parse.py:1043 */
  lemma NormalizeWhoAposdAposve()
    ensures Normalize.Normalize("who'd've", true) == "who would have"
  {
    NormalizeWhoAposdAposveExpandedWords("who'd've");
    NormalizeWhoAposdAposveDigitWords(["who", "would", "have"]);
    NormalizeWhoAposdAposveDropped0(["who", "would", "have"]);
    NormalizeWhoAposdAposveJoined3(["who", "would", "have"]);
    NormalizeByWords("who'd've", true);
  }

  lemma NormalizeWonApostAposveLowered(ws: seq<string>)
    requires ws == ["will", "not", "have"]
    ensures MapLower(ws) == ["will", "not", "have"]
  {
    forall i | 0 <= i < 3
      ensures Lower(ws[i]) == ["will", "not", "have"][i]
    {
    }
  }

  lemma NormalizeWonApostAposveReadings0(ws: seq<string>, ts: seq<Token>, shortScale: bool)
    requires ws == ["will", "not", "have"]
    requires ts == [OtherWord, OtherWord, OtherWord]
    ensures Tokens(ws, shortScale) == ts
  {
    forall i | 0 <= i < 3
      ensures Classify(ws[i], shortScale) == ts[i]
    {
      if i == 0 { ReadWill(shortScale); }
      else if i == 1 { ReadNot(shortScale); }
      else if i == 2 { ReadHave(shortScale); }
    }
    TokensOfReadings(ws, ts, shortScale);
  }

  lemma NormalizeWonApostAposveReadings(shortScale: bool)
    ensures Tokens(["will", "not", "have"], shortScale) == [OtherWord, OtherWord, OtherWord]
  {
    NormalizeWonApostAposveReadings0(["will", "not", "have"], [OtherWord, OtherWord, OtherWord], shortScale);
  }

  lemma NormalizeWonApostAposveDigitize0(ws: seq<string>, ts: seq<Token>)
    requires ws == ["will", "not", "have"]
    requires ts == [OtherWord, OtherWord, OtherWord]
    ensures Digitize(ws, ts, None, None) == [Plain("will"), Plain("not"), Plain("have")]
  {
    NormalizeWonApostAposveDigitize1(ws[1..], ts[1..]);
  }

  lemma NormalizeWonApostAposveDigitize1(ws: seq<string>, ts: seq<Token>)
    requires ws == ["not", "have"]
    requires ts == [OtherWord, OtherWord]
    ensures Digitize(ws, ts, None, None) == [Plain("not"), Plain("have")]
  {
    NormalizeWonApostAposveDigitize2(ws[1..], ts[1..]);
  }

  lemma NormalizeWonApostAposveDigitize2(ws: seq<string>, ts: seq<Token>)
    requires ws == ["have"]
    requires ts == [OtherWord]
    ensures Digitize(ws, ts, None, None) == [Plain("have")]
  {
  }

  lemma NormalizeWonApostAposveRendered(ps: seq<Piece>)
    requires ps == [Plain("will"), Plain("not"), Plain("have")]
    ensures Render(ps) == ["will", "not", "have"]
  {
    forall i | 0 <= i < 3
      ensures RenderPiece(ps[i]) == ["will", "not", "have"][i]
    {
    }
  }

  lemma NormalizeWonApostAposveDropped0(ws: seq<string>)
    requires ws == ["will", "not", "have"]
    ensures DropArticles(ws) == ["will", "not", "have"]
  {
    NormalizeWonApostAposveDropped1(ws[1..]);
  }

  lemma NormalizeWonApostAposveDropped1(ws: seq<string>)
    requires ws == ["not", "have"]
    ensures DropArticles(ws) == ["not", "have"]
  {
    NormalizeWonApostAposveDropped2(ws[1..]);
  }

  lemma NormalizeWonApostAposveDropped2(ws: seq<string>)
    requires ws == ["have"]
    ensures DropArticles(ws) == ["have"]
  {
  }

  lemma NormalizeWonApostAposveJoined1(ws: seq<string>)
    requires ws == ["will"]
    ensures Unwords(ws) == "will"
  {
  }

  lemma NormalizeWonApostAposveJoined2(ws: seq<string>)
    requires ws == ["will", "not"]
    ensures Unwords(ws) == "will not"
  {
    NormalizeWonApostAposveJoined1(ws[..1]);
    JoinWithAppend(" ", ws[..1], ws[1]);
    assert ws == ws[..1] + [ws[1]];
    assert "will" + " " + "not" == "will not";
  }

  lemma NormalizeWonApostAposveJoined3(ws: seq<string>)
    requires ws == ["will", "not", "have"]
    ensures Unwords(ws) == "will not have"
  {
    NormalizeWonApostAposveJoined2(ws[..2]);
    JoinWithAppend(" ", ws[..2], ws[2]);
    assert ws == ws[..2] + [ws[2]];
    assert "will not" + " " + "have" == "will not have";
  }

  lemma NormalizeWonApostAposveDigitWords(ws: seq<string>)
    requires ws == ["will", "not", "have"]
    ensures DigitWords(ws) == ["will", "not", "have"]
  {
    NormalizeWonApostAposveLowered(ws);
    NormalizeWonApostAposveReadings(true);
    NormalizeWonApostAposveDigitize0(ws, [OtherWord, OtherWord, OtherWord]);
    NormalizeWonApostAposveRendered([Plain("will"), Plain("not"), Plain("have")]);
  }

  /** test/test_parse.py:1054 */
  lemma NormalizeWonApostAposve()
    ensures Normalize.Normalize("won't've", true) == "will not have"
  {
    NormalizeWonApostAposveExpandedWords("won't've");
    NormalizeWonApostAposveDigitWords(["will", "not", "have"]);
    NormalizeWonApostAposveDropped0(["will", "not", "have"]);
    NormalizeWonApostAposveJoined3(["will", "not", "have"]);
    NormalizeByWords("won't've", true);
  }

  lemma NormalizeYAposallLowered(ws: seq<string>)
    requires ws == ["you", "all"]
    ensures MapLower(ws) == ["you", "all"]
  {
    forall i | 0 <= i < 2
      ensures Lower(ws[i]) == ["you", "all"][i]
    {
    }
  }

  lemma NormalizeYAposallReadings0(ws: seq<string>, ts: seq<Token>, shortScale: bool)
    requires ws == ["you", "all"]
    requires ts == [OtherWord, OtherWord]
    ensures Tokens(ws, shortScale) == ts
  {
    forall i | 0 <= i < 2
      ensures Classify(ws[i], shortScale) == ts[i]
    {
      if i == 0 { ReadYou(shortScale); }
      else if i == 1 { ReadAll(shortScale); }
    }
    TokensOfReadings(ws, ts, shortScale);
  }

  lemma NormalizeYAposallReadings(shortScale: bool)
    ensures Tokens(["you", "all"], shortScale) == [OtherWord, OtherWord]
  {
    NormalizeYAposallReadings0(["you", "all"], [OtherWord, OtherWord], shortScale);
  }

  lemma NormalizeYAposallDigitize0(ws: seq<string>, ts: seq<Token>)
    requires ws == ["you", "all"]
    requires ts == [OtherWord, OtherWord]
    ensures Digitize(ws, ts, None, None) == [Plain("you"), Plain("all")]
  {
    NormalizeYAposallDigitize1(ws[1..], ts[1..]);
  }

  lemma NormalizeYAposallDigitize1(ws: seq<string>, ts: seq<Token>)
    requires ws == ["all"]
    requires ts == [OtherWord]
    ensures Digitize(ws, ts, None, None) == [Plain("all")]
  {
  }

  lemma NormalizeYAposallRendered(ps: seq<Piece>)
    requires ps == [Plain("you"), Plain("all")]
    ensures Render(ps) == ["you", "all"]
  {
    forall i | 0 <= i < 2
      ensures RenderPiece(ps[i]) == ["you", "all"][i]
    {
    }
  }

  lemma NormalizeYAposallDropped0(ws: seq<string>)
    requires ws == ["you", "all"]
    ensures DropArticles(ws) == ["you", "all"]
  {
    NormalizeYAposallDropped1(ws[1..]);
  }

  lemma NormalizeYAposallDropped1(ws: seq<string>)
    requires ws == ["all"]
    ensures DropArticles(ws) == ["all"]
  {
  }

  lemma NormalizeYAposallJoined1(ws: seq<string>)
    requires ws == ["you"]
    ensures Unwords(ws) == "you"
  {
  }

  lemma NormalizeYAposallJoined2(ws: seq<string>)
    requires ws == ["you", "all"]
    ensures Unwords(ws) == "you all"
  {
    NormalizeYAposallJoined1(ws[..1]);
    JoinWithAppend(" ", ws[..1], ws[1]);
    assert ws == ws[..1] + [ws[1]];
    assert "you" + " " + "all" == "you all";
  }

  lemma NormalizeYAposallDigitWords(ws: seq<string>)
    requires ws == ["you", "all"]
    ensures DigitWords(ws) == ["you", "all"]
  {
    NormalizeYAposallLowered(ws);
    NormalizeYAposallReadings(true);
    NormalizeYAposallDigitize0(ws, [OtherWord, OtherWord]);
    NormalizeYAposallRendered([Plain("you"), Plain("all")]);
  }

  /** test/test_parse.py:1059 */
  lemma NormalizeYAposall()
    ensures Normalize.Normalize("y'all", true) == "you all"
  {
    NormalizeYAposallExpandedWords("y'all");
    NormalizeYAposallDigitWords(["you", "all"]);
    NormalizeYAposallDropped0(["you", "all"]);
    NormalizeYAposallJoined2(["you", "all"]);
    NormalizeByWords("y'all", true);
  }

  lemma NormalizeIWouldnApostHaveLowered(ws: seq<string>)
    requires ws == ["I", "would", "not", "have"]
    ensures MapLower(ws) == ["i", "would", "not", "have"]
  {
    forall i | 0 <= i < 4
      ensures Lower(ws[i]) == ["i", "would", "not", "have"][i]
    {
    }
  }

  lemma NormalizeIWouldnApostHaveReadings0(ws: seq<string>, ts: seq<Token>, shortScale: bool)
    requires ws == ["i", "would", "not", "have"]
    requires ts == [OtherWord, OtherWord, OtherWord, OtherWord]
    ensures Tokens(ws, shortScale) == ts
  {
    forall i | 0 <= i < 4
      ensures Classify(ws[i], shortScale) == ts[i]
    {
      if i == 0 { ReadI(shortScale); }
      else if i == 1 { ReadWould(shortScale); }
      else if i == 2 { ReadNot(shortScale); }
      else if i == 3 { ReadHave(shortScale); }
    }
    TokensOfReadings(ws, ts, shortScale);
  }

  lemma NormalizeIWouldnApostHaveReadings(shortScale: bool)
    ensures Tokens(["i", "would", "not", "have"], shortScale) == [OtherWord, OtherWord, OtherWord, OtherWord]
  {
    NormalizeIWouldnApostHaveReadings0(["i", "would", "not", "have"], [OtherWord, OtherWord, OtherWord, OtherWord], shortScale);
  }

  lemma NormalizeIWouldnApostHaveDigitize0(ws: seq<string>, ts: seq<Token>)
    requires ws == ["I", "would", "not", "have"]
    requires ts == [OtherWord, OtherWord, OtherWord, OtherWord]
    ensures Digitize(ws, ts, None, None) == [Plain("I"), Plain("would"), Plain("not"), Plain("have")]
  {
    NormalizeIWouldnApostHaveDigitize1(ws[1..], ts[1..]);
  }

  lemma NormalizeIWouldnApostHaveDigitize1(ws: seq<string>, ts: seq<Token>)
    requires ws == ["would", "not", "have"]
    requires ts == [OtherWord, OtherWord, OtherWord]
    ensures Digitize(ws, ts, None, None) == [Plain("would"), Plain("not"), Plain("have")]
  {
    NormalizeIWouldnApostHaveDigitize2(ws[1..], ts[1..]);
  }

  lemma NormalizeIWouldnApostHaveDigitize2(ws: seq<string>, ts: seq<Token>)
    requires ws == ["not", "have"]
    requires ts == [OtherWord, OtherWord]
    ensures Digitize(ws, ts, None, None) == [Plain("not"), Plain("have")]
  {
    NormalizeIWouldnApostHaveDigitize3(ws[1..], ts[1..]);
  }

  lemma NormalizeIWouldnApostHaveDigitize3(ws: seq<string>, ts: seq<Token>)
    requires ws == ["have"]
    requires ts == [OtherWord]
    ensures Digitize(ws, ts, None, None) == [Plain("have")]
  {
  }

  lemma NormalizeIWouldnApostHaveRendered(ps: seq<Piece>)
    requires ps == [Plain("I"), Plain("would"), Plain("not"), Plain("have")]
    ensures Render(ps) == ["I", "would", "not", "have"]
  {
    forall i | 0 <= i < 4
      ensures RenderPiece(ps[i]) == ["I", "would", "not", "have"][i]
    {
    }
  }

  lemma NormalizeIWouldnApostHaveDropped0(ws: seq<string>)
    requires ws == ["I", "would", "not", "have"]
    ensures DropArticles(ws) == ["I", "would", "not", "have"]
  {
    NormalizeIWouldnApostHaveDropped1(ws[1..]);
  }

  lemma NormalizeIWouldnApostHaveDropped1(ws: seq<string>)
    requires ws == ["would", "not", "have"]
    ensures DropArticles(ws) == ["would", "not", "have"]
  {
    NormalizeIWouldnApostHaveDropped2(ws[1..]);
  }

  lemma NormalizeIWouldnApostHaveDropped2(ws: seq<string>)
    requires ws == ["not", "have"]
    ensures DropArticles(ws) == ["not", "have"]
  {
    NormalizeIWouldnApostHaveDropped3(ws[1..]);
  }

  lemma NormalizeIWouldnApostHaveDropped3(ws: seq<string>)
    requires ws == ["have"]
    ensures DropArticles(ws) == ["have"]
  {
  }

  lemma NormalizeIWouldnApostHaveJoined1(ws: seq<string>)
    requires ws == ["I"]
    ensures Unwords(ws) == "I"
  {
  }

  lemma NormalizeIWouldnApostHaveJoined2(ws: seq<string>)
    requires ws == ["I", "would"]
    ensures Unwords(ws) == "I would"
  {
    NormalizeIWouldnApostHaveJoined1(ws[..1]);
    JoinWithAppend(" ", ws[..1], ws[1]);
    assert ws == ws[..1] + [ws[1]];
    assert "I" + " " + "would" == "I would";
  }

  lemma NormalizeIWouldnApostHaveJoined3(ws: seq<string>)
    requires ws == ["I", "would", "not"]
    ensures Unwords(ws) == "I would not"
  {
    NormalizeIWouldnApostHaveJoined2(ws[..2]);
    JoinWithAppend(" ", ws[..2], ws[2]);
    assert ws == ws[..2] + [ws[2]];
    assert "I would" + " " + "not" == "I would not";
  }

  lemma NormalizeIWouldnApostHaveJoined4(ws: seq<string>)
    requires ws == ["I", "would", "not", "have"]
    ensures Unwords(ws) == "I would not have"
  {
    NormalizeIWouldnApostHaveJoined3(ws[..3]);
    JoinWithAppend(" ", ws[..3], ws[3]);
    assert ws == ws[..3] + [ws[3]];
    assert "I would not" + " " + "have" == "I would not have";
  }

  lemma NormalizeIWouldnApostHaveDigitWords(ws: seq<string>)
    requires ws == ["I", "would", "not", "have"]
    ensures DigitWords(ws) == ["I", "would", "not", "have"]
  {
    NormalizeIWouldnApostHaveLowered(ws);
    NormalizeIWouldnApostHaveReadings(true);
    NormalizeIWouldnApostHaveDigitize0(ws, [OtherWord, OtherWord, OtherWord, OtherWord]);
    NormalizeIWouldnApostHaveRendered([Plain("I"), Plain("would"), Plain("not"), Plain("have")]);
  }

  /** test/test_parse.py:1073 */
  lemma NormalizeIWouldnApostHave()
    ensures Normalize.Normalize("I wouldn't have", true) == "I would not have"
  {
    NormalizeIWouldnApostHaveExpandedWords("I wouldn't have");
    NormalizeIWouldnApostHaveDigitWords(["I", "would", "not", "have"]);
    NormalizeIWouldnApostHaveDropped0(["I", "would", "not", "have"]);
    NormalizeIWouldnApostHaveJoined4(["I", "would", "not", "have"]);
    NormalizeByWords("I wouldn't have", true);
  }

  lemma NormalizeIHadnApostBeenThereLowered(ws: seq<string>)
    requires ws == ["I", "had", "not", "been", "there"]
    ensures MapLower(ws) == ["i", "had", "not", "been", "there"]
  {
    forall i | 0 <= i < 5
      ensures Lower(ws[i]) == ["i", "had", "not", "been", "there"][i]
    {
    }
  }

  lemma NormalizeIHadnApostBeenThereReadings0(ws: seq<string>, ts: seq<Token>, shortScale: bool)
    requires ws == ["i", "had", "not", "been"]
    requires ts == [OtherWord, OtherWord, OtherWord, OtherWord]
    ensures Tokens(ws, shortScale) == ts
  {
    forall i | 0 <= i < 4
      ensures Classify(ws[i], shortScale) == ts[i]
    {
      if i == 0 { ReadI(shortScale); }
      else if i == 1 { ReadHad(shortScale); }
      else if i == 2 { ReadNot(shortScale); }
      else if i == 3 { ReadBeen(shortScale); }
    }
    TokensOfReadings(ws, ts, shortScale);
  }

  lemma NormalizeIHadnApostBeenThereReadings1(ws: seq<string>, ts: seq<Token>, shortScale: bool)
    requires ws == ["there"]
    requires ts == [OtherWord]
    ensures Tokens(ws, shortScale) == ts
  {
    forall i | 0 <= i < 1
      ensures Classify(ws[i], shortScale) == ts[i]
    {
      if i == 0 { ReadThere(shortScale); }
    }
    TokensOfReadings(ws, ts, shortScale);
  }

  lemma NormalizeIHadnApostBeenThereWordChunks()
    ensures ["i", "had", "not", "been", "there"] == ["i", "had", "not", "been"] + ["there"]
  {
  }

  lemma NormalizeIHadnApostBeenThereTokenChunks(shortScale: bool)
    ensures [OtherWord, OtherWord, OtherWord, OtherWord, OtherWord] == [OtherWord, OtherWord, OtherWord, OtherWord] + [OtherWord]
  {
  }

  lemma NormalizeIHadnApostBeenThereReadings(shortScale: bool)
    ensures Tokens(["i", "had", "not", "been", "there"], shortScale) == [OtherWord, OtherWord, OtherWord, OtherWord, OtherWord]
  {
    var w0, w1 := ["i", "had", "not", "been"], ["there"];
    var t0, t1 := [OtherWord, OtherWord, OtherWord, OtherWord], [OtherWord];
    NormalizeIHadnApostBeenThereReadings0(w0, t0, shortScale);
    NormalizeIHadnApostBeenThereReadings1(w1, t1, shortScale);
    TokensJoin(w0, w1, t0, t1, shortScale);
    NormalizeIHadnApostBeenThereWordChunks();
    NormalizeIHadnApostBeenThereTokenChunks(shortScale);
  }

  lemma NormalizeIHadnApostBeenThereDigitize0(ws: seq<string>, ts: seq<Token>)
    requires ws == ["I", "had", "not", "been", "there"]
    requires ts == [OtherWord, OtherWord, OtherWord, OtherWord, OtherWord]
    ensures Digitize(ws, ts, None, None) == [Plain("I"), Plain("had"), Plain("not"), Plain("been"), Plain("there")]
  {
    NormalizeIHadnApostBeenThereDigitize1(ws[1..], ts[1..]);
  }

  lemma NormalizeIHadnApostBeenThereDigitize1(ws: seq<string>, ts: seq<Token>)
    requires ws == ["had", "not", "been", "there"]
    requires ts == [OtherWord, OtherWord, OtherWord, OtherWord]
    ensures Digitize(ws, ts, None, None) == [Plain("had"), Plain("not"), Plain("been"), Plain("there")]
  {
    NormalizeIHadnApostBeenThereDigitize2(ws[1..], ts[1..]);
  }

  lemma NormalizeIHadnApostBeenThereDigitize2(ws: seq<string>, ts: seq<Token>)
    requires ws == ["not", "been", "there"]
    requires ts == [OtherWord, OtherWord, OtherWord]
    ensures Digitize(ws, ts, None, None) == [Plain("not"), Plain("been"), Plain("there")]
  {
    NormalizeIHadnApostBeenThereDigitize3(ws[1..], ts[1..]);
  }

  lemma NormalizeIHadnApostBeenThereDigitize3(ws: seq<string>, ts: seq<Token>)
    requires ws == ["been", "there"]
    requires ts == [OtherWord, OtherWord]
    ensures Digitize(ws, ts, None, None) == [Plain("been"), Plain("there")]
  {
    NormalizeIHadnApostBeenThereDigitize4(ws[1..], ts[1..]);
  }

  lemma NormalizeIHadnApostBeenThereDigitize4(ws: seq<string>, ts: seq<Token>)
    requires ws == ["there"]
    requires ts == [OtherWord]
    ensures Digitize(ws, ts, None, None) == [Plain("there")]
  {
  }

  lemma NormalizeIHadnApostBeenThereRendered(ps: seq<Piece>)
    requires ps == [Plain("I"), Plain("had"), Plain("not"), Plain("been"), Plain("there")]
    ensures Render(ps) == ["I", "had", "not", "been", "there"]
  {
    forall i | 0 <= i < 5
      ensures RenderPiece(ps[i]) == ["I", "had", "not", "been", "there"][i]
    {
    }
  }

  lemma NormalizeIHadnApostBeenThereDropped0(ws: seq<string>)
    requires ws == ["I", "had", "not", "been", "there"]
    ensures DropArticles(ws) == ["I", "had", "not", "been", "there"]
  {
    NormalizeIHadnApostBeenThereDropped1(ws[1..]);
  }

  lemma NormalizeIHadnApostBeenThereDropped1(ws: seq<string>)
    requires ws == ["had", "not", "been", "there"]
    ensures DropArticles(ws) == ["had", "not", "been", "there"]
  {
    NormalizeIHadnApostBeenThereDropped2(ws[1..]);
  }

  lemma NormalizeIHadnApostBeenThereDropped2(ws: seq<string>)
    requires ws == ["not", "been", "there"]
    ensures DropArticles(ws) == ["not", "been", "there"]
  {
    NormalizeIHadnApostBeenThereDropped3(ws[1..]);
  }

  lemma NormalizeIHadnApostBeenThereDropped3(ws: seq<string>)
    requires ws == ["been", "there"]
    ensures DropArticles(ws) == ["been", "there"]
  {
    NormalizeIHadnApostBeenThereDropped4(ws[1..]);
  }

  lemma NormalizeIHadnApostBeenThereDropped4(ws: seq<string>)
    requires ws == ["there"]
    ensures DropArticles(ws) == ["there"]
  {
  }

  lemma NormalizeIHadnApostBeenThereJoined1(ws: seq<string>)
    requires ws == ["I"]
    ensures Unwords(ws) == "I"
  {
  }

  lemma NormalizeIHadnApostBeenThereJoined2(ws: seq<string>)
    requires ws == ["I", "had"]
    ensures Unwords(ws) == "I had"
  {
    NormalizeIHadnApostBeenThereJoined1(ws[..1]);
    JoinWithAppend(" ", ws[..1], ws[1]);
    assert ws == ws[..1] + [ws[1]];
    assert "I" + " " + "had" == "I had";
  }

  lemma NormalizeIHadnApostBeenThereJoined3(ws: seq<string>)
    requires ws == ["I", "had", "not"]
    ensures Unwords(ws) == "I had not"
  {
    NormalizeIHadnApostBeenThereJoined2(ws[..2]);
    JoinWithAppend(" ", ws[..2], ws[2]);
    assert ws == ws[..2] + [ws[2]];
    assert "I had" + " " + "not" == "I had not";
  }

  lemma NormalizeIHadnApostBeenThereJoined4(ws: seq<string>)
    requires ws == ["I", "had", "not", "been"]
    ensures Unwords(ws) == "I had not been"
  {
    NormalizeIHadnApostBeenThereJoined3(ws[..3]);
    JoinWithAppend(" ", ws[..3], ws[3]);
    assert ws == ws[..3] + [ws[3]];
    assert "I had not" + " " + "been" == "I had not been";
  }

  lemma NormalizeIHadnApostBeenThereJoined5(ws: seq<string>)
    requires ws == ["I", "had", "not", "been", "there"]
    ensures Unwords(ws) == "I had not been there"
  {
    NormalizeIHadnApostBeenThereJoined4(ws[..4]);
    JoinWithAppend(" ", ws[..4], ws[4]);
    assert ws == ws[..4] + [ws[4]];
    assert "I had not been" + " " + "there" == "I had not been there";
  }

  lemma NormalizeIHadnApostBeenThereDigitWords(ws: seq<string>)
    requires ws == ["I", "had", "not", "been", "there"]
    ensures DigitWords(ws) == ["I", "had", "not", "been", "there"]
  {
    NormalizeIHadnApostBeenThereLowered(ws);
    NormalizeIHadnApostBeenThereReadings(true);
    NormalizeIHadnApostBeenThereDigitize0(ws, [OtherWord, OtherWord, OtherWord, OtherWord, OtherWord]);
    NormalizeIHadnApostBeenThereRendered([Plain("I"), Plain("had"), Plain("not"), Plain("been"), Plain("there")]);
  }

  /** test/test_parse.py:1074-1075 */
  lemma NormalizeIHadnApostBeenThere()
    ensures Normalize.Normalize("I hadn't been there", true) == "I had not been there"
  {
    NormalizeIHadnApostBeenThereExpandedWords("I hadn't been there");
    NormalizeIHadnApostBeenThereDigitWords(["I", "had", "not", "been", "there"]);
    NormalizeIHadnApostBeenThereDropped0(["I", "had", "not", "been", "there"]);
    NormalizeIHadnApostBeenThereJoined5(["I", "had", "not", "been", "there"]);
    NormalizeByWords("I hadn't been there", true);
  }

  lemma NormalizeWhatApossTheWeatherLikeLowered(ws: seq<string>)
    requires ws == ["what", "is", "the", "weather", "like"]
    ensures MapLower(ws) == ["what", "is", "the", "weather", "like"]
  {
    forall i | 0 <= i < 5
      ensures Lower(ws[i]) == ["what", "is", "the", "weather", "like"][i]
    {
    }
  }

  lemma NormalizeWhatApossTheWeatherLikeReadings0(ws: seq<string>, ts: seq<Token>, shortScale: bool)
    requires ws == ["what", "is", "the", "weather"]
    requires ts == [OtherWord, OtherWord, OtherWord, OtherWord]
    ensures Tokens(ws, shortScale) == ts
  {
    forall i | 0 <= i < 4
      ensures Classify(ws[i], shortScale) == ts[i]
    {
      if i == 0 { ReadWhat(shortScale); }
      else if i == 1 { ReadIs(shortScale); }
      else if i == 2 { ReadThe(shortScale); }
      else if i == 3 { ReadWeather(shortScale); }
    }
    TokensOfReadings(ws, ts, shortScale);
  }

  lemma NormalizeWhatApossTheWeatherLikeReadings1(ws: seq<string>, ts: seq<Token>, shortScale: bool)
    requires ws == ["like"]
    requires ts == [OtherWord]
    ensures Tokens(ws, shortScale) == ts
  {
    forall i | 0 <= i < 1
      ensures Classify(ws[i], shortScale) == ts[i]
    {
      if i == 0 { ReadLike(shortScale); }
    }
    TokensOfReadings(ws, ts, shortScale);
  }

  lemma NormalizeWhatApossTheWeatherLikeWordChunks()
    ensures ["what", "is", "the", "weather", "like"] == ["what", "is", "the", "weather"] + ["like"]
  {
  }

  lemma NormalizeWhatApossTheWeatherLikeTokenChunks(shortScale: bool)
    ensures [OtherWord, OtherWord, OtherWord, OtherWord, OtherWord] == [OtherWord, OtherWord, OtherWord, OtherWord] + [OtherWord]
  {
  }

  lemma NormalizeWhatApossTheWeatherLikeReadings(shortScale: bool)
    ensures Tokens(["what", "is", "the", "weather", "like"], shortScale) == [OtherWord, OtherWord, OtherWord, OtherWord, OtherWord]
  {
    var w0, w1 := ["what", "is", "the", "weather"], ["like"];
    var t0, t1 := [OtherWord, OtherWord, OtherWord, OtherWord], [OtherWord];
    NormalizeWhatApossTheWeatherLikeReadings0(w0, t0, shortScale);
    NormalizeWhatApossTheWeatherLikeReadings1(w1, t1, shortScale);
    TokensJoin(w0, w1, t0, t1, shortScale);
    NormalizeWhatApossTheWeatherLikeWordChunks();
    NormalizeWhatApossTheWeatherLikeTokenChunks(shortScale);
  }

  lemma NormalizeWhatApossTheWeatherLikeDigitize0(ws: seq<string>, ts: seq<Token>)
    requires ws == ["what", "is", "the", "weather", "like"]
    requires ts == [OtherWord, OtherWord, OtherWord, OtherWord, OtherWord]
    ensures Digitize(ws, ts, None, None) == [Plain("what"), Plain("is"), Plain("the"), Plain("weather"), Plain("like")]
  {
    NormalizeWhatApossTheWeatherLikeDigitize1(ws[1..], ts[1..]);
  }

  lemma NormalizeWhatApossTheWeatherLikeDigitize1(ws: seq<string>, ts: seq<Token>)
    requires ws == ["is", "the", "weather", "like"]
    requires ts == [OtherWord, OtherWord, OtherWord, OtherWord]
    ensures Digitize(ws, ts, None, None) == [Plain("is"), Plain("the"), Plain("weather"), Plain("like")]
  {
    NormalizeWhatApossTheWeatherLikeDigitize2(ws[1..], ts[1..]);
  }

  lemma NormalizeWhatApossTheWeatherLikeDigitize2(ws: seq<string>, ts: seq<Token>)
    requires ws == ["the", "weather", "like"]
    requires ts == [OtherWord, OtherWord, OtherWord]
    ensures Digitize(ws, ts, None, None) == [Plain("the"), Plain("weather"), Plain("like")]
  {
    NormalizeWhatApossTheWeatherLikeDigitize3(ws[1..], ts[1..]);
  }

  lemma NormalizeWhatApossTheWeatherLikeDigitize3(ws: seq<string>, ts: seq<Token>)
    requires ws == ["weather", "like"]
    requires ts == [OtherWord, OtherWord]
    ensures Digitize(ws, ts, None, None) == [Plain("weather"), Plain("like")]
  {
    NormalizeWhatApossTheWeatherLikeDigitize4(ws[1..], ts[1..]);
  }

  lemma NormalizeWhatApossTheWeatherLikeDigitize4(ws: seq<string>, ts: seq<Token>)
    requires ws == ["like"]
    requires ts == [OtherWord]
    ensures Digitize(ws, ts, None, None) == [Plain("like")]
  {
  }

  lemma NormalizeWhatApossTheWeatherLikeRendered(ps: seq<Piece>)
    requires ps == [Plain("what"), Plain("is"), Plain("the"), Plain("weather"), Plain("like")]
    ensures Render(ps) == ["what", "is", "the", "weather", "like"]
  {
    forall i | 0 <= i < 5
      ensures RenderPiece(ps[i]) == ["what", "is", "the", "weather", "like"][i]
    {
    }
  }

  lemma NormalizeWhatApossTheWeatherLikeDropped0(ws: seq<string>)
    requires ws == ["what", "is", "the", "weather", "like"]
    ensures DropArticles(ws) == ["what", "is", "weather", "like"]
  {
    NormalizeWhatApossTheWeatherLikeDropped1(ws[1..]);
  }

  lemma NormalizeWhatApossTheWeatherLikeDropped1(ws: seq<string>)
    requires ws == ["is", "the", "weather", "like"]
    ensures DropArticles(ws) == ["is", "weather", "like"]
  {
    NormalizeWhatApossTheWeatherLikeDropped2(ws[1..]);
  }

  lemma NormalizeWhatApossTheWeatherLikeDropped2(ws: seq<string>)
    requires ws == ["the", "weather", "like"]
    ensures DropArticles(ws) == ["weather", "like"]
  {
    NormalizeWhatApossTheWeatherLikeDropped3(ws[1..]);
  }

  lemma NormalizeWhatApossTheWeatherLikeDropped3(ws: seq<string>)
    requires ws == ["weather", "like"]
    ensures DropArticles(ws) == ["weather", "like"]
  {
    NormalizeWhatApossTheWeatherLikeDropped4(ws[1..]);
  }

  lemma NormalizeWhatApossTheWeatherLikeDropped4(ws: seq<string>)
    requires ws == ["like"]
    ensures DropArticles(ws) == ["like"]
  {
  }

  lemma NormalizeWhatApossTheWeatherLikeJoined1(ws: seq<string>)
    requires ws == ["what"]
    ensures Unwords(ws) == "what"
  {
  }

  lemma NormalizeWhatApossTheWeatherLikeJoined2(ws: seq<string>)
    requires ws == ["what", "is"]
    ensures Unwords(ws) == "what is"
  {
    NormalizeWhatApossTheWeatherLikeJoined1(ws[..1]);
    JoinWithAppend(" ", ws[..1], ws[1]);
    assert ws == ws[..1] + [ws[1]];
    assert "what" + " " + "is" == "what is";
  }

  lemma NormalizeWhatApossTheWeatherLikeJoined3(ws: seq<string>)
    requires ws == ["what", "is", "weather"]
    ensures Unwords(ws) == "what is weather"
  {
    NormalizeWhatApossTheWeatherLikeJoined2(ws[..2]);
    JoinWithAppend(" ", ws[..2], ws[2]);
    assert ws == ws[..2] + [ws[2]];
    assert "what is" + " " + "weather" == "what is weather";
  }

  lemma NormalizeWhatApossTheWeatherLikeJoined4(ws: seq<string>)
    requires ws == ["what", "is", "weather", "like"]
    ensures Unwords(ws) == "what is weather like"
  {
    NormalizeWhatApossTheWeatherLikeJoined3(ws[..3]);
    JoinWithAppend(" ", ws[..3], ws[3]);
    assert ws == ws[..3] + [ws[3]];
    assert "what is weather" + " " + "like" == "what is weather like";
  }

  lemma NormalizeWhatApossTheWeatherLikeDigitWords(ws: seq<string>)
    requires ws == ["what", "is", "the", "weather", "like"]
    ensures DigitWords(ws) == ["what", "is", "the", "weather", "like"]
  {
    NormalizeWhatApossTheWeatherLikeLowered(ws);
    NormalizeWhatApossTheWeatherLikeReadings(true);
    NormalizeWhatApossTheWeatherLikeDigitize0(ws, [OtherWord, OtherWord, OtherWord, OtherWord, OtherWord]);
    NormalizeWhatApossTheWeatherLikeRendered([Plain("what"), Plain("is"), Plain("the"), Plain("weather"), Plain("like")]);
  }

  /** test/test_parse.py:1085-1086 */
  lemma NormalizeWhatApossTheWeatherLike()
    ensures Normalize.Normalize("what's the weather like", true) == "what is weather like"
  {
    NormalizeWhatApossTheWeatherLikeExpandedWords("what's the weather like");
    NormalizeWhatApossTheWeatherLikeDigitWords(["what", "is", "the", "weather", "like"]);
    NormalizeWhatApossTheWeatherLikeDropped0(["what", "is", "the", "weather", "like"]);
    NormalizeWhatApossTheWeatherLikeJoined4(["what", "is", "weather", "like"]);
    NormalizeByWords("what's the weather like", true);
  }

  lemma NormalizeWhats8Plus4Lowered(ws: seq<string>)
    requires ws == ["what", "is", "8", "+", "4"]
    ensures MapLower(ws) == ["what", "is", "8", "+", "4"]
  {
    forall i | 0 <= i < 5
      ensures Lower(ws[i]) == ["what", "is", "8", "+", "4"][i]
    {
    }
  }

  lemma NormalizeWhats8Plus4Readings0(ws: seq<string>, ts: seq<Token>, shortScale: bool)
    requires ws == ["what", "is", "8", "+"]
    requires ts == [OtherWord, OtherWord, Digits(8), OtherWord]
    ensures Tokens(ws, shortScale) == ts
  {
    forall i | 0 <= i < 4
      ensures Classify(ws[i], shortScale) == ts[i]
    {
      if i == 0 { ReadWhat(shortScale); }
      else if i == 1 { ReadIs(shortScale); }
      else if i == 2 { Read8(shortScale); }
      else if i == 3 { ReadPlus(shortScale); }
    }
    TokensOfReadings(ws, ts, shortScale);
  }

  lemma NormalizeWhats8Plus4Readings1(ws: seq<string>, ts: seq<Token>, shortScale: bool)
    requires ws == ["4"]
    requires ts == [Digits(4)]
    ensures Tokens(ws, shortScale) == ts
  {
    forall i | 0 <= i < 1
      ensures Classify(ws[i], shortScale) == ts[i]
    {
      if i == 0 { Read4(shortScale); }
    }
    TokensOfReadings(ws, ts, shortScale);
  }

  lemma NormalizeWhats8Plus4WordChunks()
    ensures ["what", "is", "8", "+", "4"] == ["what", "is", "8", "+"] + ["4"]
  {
  }

  lemma NormalizeWhats8Plus4TokenChunks(shortScale: bool)
    ensures [OtherWord, OtherWord, Digits(8), OtherWord, Digits(4)] == [OtherWord, OtherWord, Digits(8), OtherWord] + [Digits(4)]
  {
  }

  lemma NormalizeWhats8Plus4Readings(shortScale: bool)
    ensures Tokens(["what", "is", "8", "+", "4"], shortScale) == [OtherWord, OtherWord, Digits(8), OtherWord, Digits(4)]
  {
    var w0, w1 := ["what", "is", "8", "+"], ["4"];
    var t0, t1 := [OtherWord, OtherWord, Digits(8), OtherWord], [Digits(4)];
    NormalizeWhats8Plus4Readings0(w0, t0, shortScale);
    NormalizeWhats8Plus4Readings1(w1, t1, shortScale);
    TokensJoin(w0, w1, t0, t1, shortScale);
    NormalizeWhats8Plus4WordChunks();
    NormalizeWhats8Plus4TokenChunks(shortScale);
  }

  lemma NormalizeWhats8Plus4Digitize0(ws: seq<string>, ts: seq<Token>)
    requires ws == ["what", "is", "8", "+", "4"]
    requires ts == [OtherWord, OtherWord, Digits(8), OtherWord, Digits(4)]
    ensures Digitize(ws, ts, None, None) == [Plain("what"), Plain("is"), Number(8), Plain("+"), Number(4)]
  {
    NormalizeWhats8Plus4Digitize1(ws[1..], ts[1..]);
  }

  lemma NormalizeWhats8Plus4Digitize1(ws: seq<string>, ts: seq<Token>)
    requires ws == ["is", "8", "+", "4"]
    requires ts == [OtherWord, Digits(8), OtherWord, Digits(4)]
    ensures Digitize(ws, ts, None, None) == [Plain("is"), Number(8), Plain("+"), Number(4)]
  {
    NormalizeWhats8Plus4Digitize2(ws[1..], ts[1..]);
  }

  lemma NormalizeWhats8Plus4Digitize2(ws: seq<string>, ts: seq<Token>)
    requires ws == ["8", "+", "4"]
    requires ts == [Digits(8), OtherWord, Digits(4)]
    ensures Digitize(ws, ts, None, None) == [Number(8), Plain("+"), Number(4)]
  {
    NormalizeWhats8Plus4Digitize3(ws[1..], ts[1..]);
  }

  lemma NormalizeWhats8Plus4Digitize3(ws: seq<string>, ts: seq<Token>)
    requires ws == ["+", "4"]
    requires ts == [OtherWord, Digits(4)]
    ensures Digitize(ws, ts, Some(Run(0, 8, Digits(8), false)), None) == [Number(8), Plain("+"), Number(4)]
  {
    NormalizeWhats8Plus4Digitize4(ws[1..], ts[1..]);
  }

  lemma NormalizeWhats8Plus4Digitize4(ws: seq<string>, ts: seq<Token>)
    requires ws == ["4"]
    requires ts == [Digits(4)]
    ensures Digitize(ws, ts, None, None) == [Number(4)]
  {
  }

  lemma NormalizeWhats8Plus4Rendered(ps: seq<Piece>)
    requires ps == [Plain("what"), Plain("is"), Number(8), Plain("+"), Number(4)]
    ensures Render(ps) == ["what", "is", "8", "+", "4"]
  {
    forall i | 0 <= i < 5
      ensures RenderPiece(ps[i]) == ["what", "is", "8", "+", "4"][i]
    {
    }
  }

  lemma NormalizeWhats8Plus4Dropped0(ws: seq<string>)
    requires ws == ["what", "is", "8", "+", "4"]
    ensures DropArticles(ws) == ["what", "is", "8", "+", "4"]
  {
    NormalizeWhats8Plus4Dropped1(ws[1..]);
  }

  lemma NormalizeWhats8Plus4Dropped1(ws: seq<string>)
    requires ws == ["is", "8", "+", "4"]
    ensures DropArticles(ws) == ["is", "8", "+", "4"]
  {
    NormalizeWhats8Plus4Dropped2(ws[1..]);
  }

  lemma NormalizeWhats8Plus4Dropped2(ws: seq<string>)
    requires ws == ["8", "+", "4"]
    ensures DropArticles(ws) == ["8", "+", "4"]
  {
    NormalizeWhats8Plus4Dropped3(ws[1..]);
  }

  lemma NormalizeWhats8Plus4Dropped3(ws: seq<string>)
    requires ws == ["+", "4"]
    ensures DropArticles(ws) == ["+", "4"]
  {
    NormalizeWhats8Plus4Dropped4(ws[1..]);
  }

  lemma NormalizeWhats8Plus4Dropped4(ws: seq<string>)
    requires ws == ["4"]
    ensures DropArticles(ws) == ["4"]
  {
  }

  lemma NormalizeWhats8Plus4Joined1(ws: seq<string>)
    requires ws == ["what"]
    ensures Unwords(ws) == "what"
  {
  }

  lemma NormalizeWhats8Plus4Joined2(ws: seq<string>)
    requires ws == ["what", "is"]
    ensures Unwords(ws) == "what is"
  {
    NormalizeWhats8Plus4Joined1(ws[..1]);
    JoinWithAppend(" ", ws[..1], ws[1]);
    assert ws == ws[..1] + [ws[1]];
    assert "what" + " " + "is" == "what is";
  }

  lemma NormalizeWhats8Plus4Joined3(ws: seq<string>)
    requires ws == ["what", "is", "8"]
    ensures Unwords(ws) == "what is 8"
  {
    NormalizeWhats8Plus4Joined2(ws[..2]);
    JoinWithAppend(" ", ws[..2], ws[2]);
    assert ws == ws[..2] + [ws[2]];
    assert "what is" + " " + "8" == "what is 8";
  }

  lemma NormalizeWhats8Plus4Joined4(ws: seq<string>)
    requires ws == ["what", "is", "8", "+"]
    ensures Unwords(ws) == "what is 8 +"
  {
    NormalizeWhats8Plus4Joined3(ws[..3]);
    JoinWithAppend(" ", ws[..3], ws[3]);
    assert ws == ws[..3] + [ws[3]];
    assert "what is 8" + " " + "+" == "what is 8 +";
  }

  lemma NormalizeWhats8Plus4Joined5(ws: seq<string>)
    requires ws == ["what", "is", "8", "+", "4"]
    ensures Unwords(ws) == "what is 8 + 4"
  {
    NormalizeWhats8Plus4Joined4(ws[..4]);
    JoinWithAppend(" ", ws[..4], ws[4]);
    assert ws == ws[..4] + [ws[4]];
    assert "what is 8 +" + " " + "4" == "what is 8 + 4";
  }

  lemma NormalizeWhats8Plus4DigitWords(ws: seq<string>)
    requires ws == ["what", "is", "8", "+", "4"]
    ensures DigitWords(ws) == ["what", "is", "8", "+", "4"]
  {
    NormalizeWhats8Plus4Lowered(ws);
    NormalizeWhats8Plus4Readings(true);
    NormalizeWhats8Plus4Digitize0(ws, [OtherWord, OtherWord, Digits(8), OtherWord, Digits(4)]);
    NormalizeWhats8Plus4Rendered([Plain("what"), Plain("is"), Number(8), Plain("+"), Number(4)]);
  }

  /** test/test_parse.py:1090 */
  lemma NormalizeWhats8Plus4()
    ensures Normalize.Normalize("whats 8 + 4", true) == "what is 8 + 4"
  {
    NormalizeWhats8Plus4ExpandedWords("whats 8 + 4");
    NormalizeWhats8Plus4DigitWords(["what", "is", "8", "+", "4"]);
    NormalizeWhats8Plus4Dropped0(["what", "is", "8", "+", "4"]);
    NormalizeWhats8Plus4Joined5(["what", "is", "8", "+", "4"]);
    NormalizeByWords("whats 8 + 4", true);
  }
}
