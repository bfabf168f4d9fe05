/** The English contractions `normalize` expands. */
module ContractionTable {
  import opened Options

  /** The words the contraction `w` stands for, if `w` is one. */
  function Contraction(w: string): Option<string>
  {
    Part1(w)
  }

  /* The table is written as four matches of at most 23 entries each, in
     the order the tests list the contractions, each handing the words it
     does not know to the next, so that the verifier can tell a word from
     the entries of one part at a time. No contraction appears in two
     parts. */
  function Part1(w: string): Option<string>
  {
    match w
    case "ain't" => Some("is not")
    case "aren't" => Some("are not")
    case "can't" => Some("can not")
    case "could've" => Some("could have")
    case "couldn't" => Some("could not")
    case "didn't" => Some("did not")
    case "doesn't" => Some("does not")
    case "don't" => Some("do not")
    case "gonna" => Some("going to")
    case "gotta" => Some("got to")
    case "hadn't" => Some("had not")
    case "hasn't" => Some("has not")
    case "haven't" => Some("have not")
    case "he'd" => Some("he would")
    case "he'll" => Some("he will")
    case "he's" => Some("he is")
    case "how'd" => Some("how did")
    case "how'll" => Some("how will")
    case "how's" => Some("how is")
    case "I'd" => Some("I would")
    case "I'll" => Some("I will")
    case "I'm" => Some("I am")
    case "I've" => Some("I have")
    case _ => Part2(w)
  }

  function Part2(w: string): Option<string>
  {
    match w
    case "isn't" => Some("is not")
    case "it'd" => Some("it would")
    case "it'll" => Some("it will")
    case "it's" => Some("it is")
    case "mightn't" => Some("might not")
    case "might've" => Some("might have")
    case "mustn't" => Some("must not")
    case "must've" => Some("must have")
    case "needn't" => Some("need not")
    case "oughtn't" => Some("ought not")
    case "shan't" => Some("shall not")
    case "she'd" => Some("she would")
    case "she'll" => Some("she will")
    case "she's" => Some("she is")
    case "should've" => Some("should have")
    case "shouldn't" => Some("should not")
    case "somebody's" => Some("somebody is")
    case "someone'd" => Some("someone would")
    case "someone'll" => Some("someone will")
    case "someone's" => Some("someone is")
    case "that'll" => Some("that will")
    case "that's" => Some("that is")
    case "that'd" => Some("that would")
    case _ => Part3(w)
  }

  function Part3(w: string): Option<string>
  {
    match w
    case "there'd" => Some("there would")
    case "there're" => Some("there are")
    case "there's" => Some("there is")
    case "they'd" => Some("they would")
    case "they'll" => Some("they will")
    case "they're" => Some("they are")
    case "they've" => Some("they have")
    case "wasn't" => Some("was not")
    case "we'd" => Some("we would")
    case "we'll" => Some("we will")
    case "we're" => Some("we are")
    case "we've" => Some("we have")
    case "weren't" => Some("were not")
    case "what'd" => Some("what did")
    case "what'll" => Some("what will")
    case "what're" => Some("what are")
    case "whats" => Some("what is")
    case "what's" => Some("what is")
    case "what've" => Some("what have")
    case "when's" => Some("when is")
    case "where'd" => Some("where did")
    case "where's" => Some("where is")
    case "where've" => Some("where have")
    case _ => Part4(w)
  }

  function Part4(w: string): Option<string>
  {
    match w
    case "who'd" => Some("who would")
    case "who'd've" => Some("who would have")
    case "who'll" => Some("who will")
    case "who're" => Some("who are")
    case "who's" => Some("who is")
    case "who've" => Some("who have")
    case "why'd" => Some("why did")
    case "why're" => Some("why are")
    case "why's" => Some("why is")
    case "won't" => Some("will not")
    case "won't've" => Some("will not have")
    case "would've" => Some("would have")
    case "wouldn't" => Some("would not")
    case "wouldn't've" => Some("would not have")
    case "ya'll" => Some("you all")
    case "y'all" => Some("you all")
    case "y'ain't" => Some("you are not")
    case "you'd" => Some("you would")
    case "you'd've" => Some("you would have")
    case "you'll" => Some("you will")
    case "you're" => Some("you are")
    case "you've" => Some("you have")
    case _ => None
  }

  /** Every contraction but "gonna", "gotta" and "whats" has an
      apostrophe, so no other word without one is expanded. */
  lemma WithoutApostrophe(w: string)
    requires '\'' !in w && w != "gonna" && w != "gotta" && w != "whats"
    ensures Contraction(w) == None
  {
    Part4Without(w);
    Part3Without(w);
    Part2Without(w);
    Part1Without(w);
  }

  lemma Part1Without(w: string)
    requires '\'' !in w && w != "gonna" && w != "gotta" && w != "whats"
    ensures Part1(w) == Part2(w)
  {
  }

  lemma Part2Without(w: string)
    requires '\'' !in w && w != "gonna" && w != "gotta" && w != "whats"
    ensures Part2(w) == Part3(w)
  {
  }

  lemma Part3Without(w: string)
    requires '\'' !in w && w != "gonna" && w != "gotta" && w != "whats"
    ensures Part3(w) == Part4(w)
  {
  }

  lemma Part4Without(w: string)
    requires '\'' !in w && w != "gonna" && w != "gotta" && w != "whats"
    ensures Part4(w) == None
  {
  }
}
