/** The Wise Guy skill: the knock-knock dialog over its list of 45 jokes. */
module WiseGuy {
  import opened Wrappers
  import opened KnockKnock

  /** JOKE_LIST; the two commented-out entries of the source are not part of it. */
  const JokeList: seq<Joke> := [
    Joke("Pickle", "Pickle little flower to give to your mother."),
    Joke("Salome", "Salome and cheese."),
    Joke("Cook", "Hey who are you calling a cuckoo."),
    Joke("apple", "Apple on the door but it doesn't open"),
    Joke("kiwi", "Kiwi go to the store?"),
    Joke("pudding", "pudding on your shoes before your pants is a bad idea."),
    Joke("Figs", "Figs me a sandwich, please"),
    Joke("turnip", "Turnip the heat -- it's cold in here"),
    Joke("Grub", "Grub hold of my hand and let's get out of here"),
    Joke("Carrot", "Don't you carrot all about me?"),
    Joke("Cheese", "Cheese a very smart girl."),
    Joke("stew", "Stew early to go to bed"),
    Joke("mint", "I mint to tell you sooner"),
    Joke("broccoli", "Broccoli doesn't have a last name,silly"),
    Joke("water", "Water you waiting for? Let me in"),
    Joke("bacon", "I'm bacon a cake for your birthday"),
    Joke("candy", "Candy cow jump over the moon?"),
    Joke("truffle", "What's the truffle with you?"),
    Joke("cereal", "Cereal pleasure to meet you"),
    Joke("pasta", "Pasta salt and pepper, please"),
    Joke("gravy", "Gravy Crockett"),
    Joke("dill", "Good--bye dill we meet again."),
    Joke("beets", "Beets me"),
    Joke("wanda", "Wanda have another hamburger?"),
    Joke("sauce", "He sauce together yesterday."),
    Joke("distressing", "Distressing has to much vineger."),
    Joke("bean", "Bean fishing lately?"),
    Joke("pepper", "A glass of juice will pepper me up."),
    Joke("pecan", "Pecan somebody your own size."),
    Joke("tuna", "Tuna piano and it'll sound better."),
    Joke("toast", "Toast were the days."),
    Joke("chicken", "Better chicken the oven--something's burning."),
    Joke("To", "Correct grammer is to whom."),
    Joke("Beets!", "Beats me!"),
    Joke("Little Old Lady", "I didn't know you could yodel!"),
    Joke("A broken pencil", "Never mind, it's pointless"),
    Joke("Snow", "Snow use, I forgot"),
    Joke("Boo", "Aw, it's okay, don't cry"),
    Joke("Woo", "Don't get so excited, it's just a joke"),
    Joke("Spell", "w.h.o."),
    Joke("Atch", "I didn't know you had a cold!"),
    Joke("Owls", "Yes, they do."),
    Joke("Gabe", "I Gabe it everything I got"),
    Joke("Summertime", "Summertime, you can be a real pest."),
    Joke("Berry!", "Berry nice to meet you.")
  ]

  /** Launch, WhosThere, SetupNameWho on a new session tell joke `id` from knock to punchline. */
  lemma HappyPathFromNewSession(id: int, d2: int, d3: int)
    requires 0 <= id < |JokeList| && 0 <= d2 < |JokeList| && 0 <= d3 < |JokeList|
    ensures var tr := Run(EmptyAttrs, [Turn(Launch, id), Turn(WhosThereIntent, d2), Turn(SetupNameWhoIntent, d3)], JokeList);
      && tr.responses[0].speech == Some("Knock knock!")
      && tr.responses[1].speech == Some(JokeList[id].setup)
      && tr.responses[2].speech == Some(JokeList[id].punchline)
      && !tr.responses[0].EndsSession() && !tr.responses[1].EndsSession() && tr.responses[2].EndsSession()
  {
    HappyPath(EmptyAttrs, JokeList, id, d2, d3);
  }

  /**
   * Any conversation with the skill, from a new session: the attributes keep
   * the invariant and every answer is defined text; a session-ending answer
   * is a punchline of the list.
   */
  lemma Conversation(turns: seq<Turn>)
    requires DrawsFrom(turns, JokeList)
    ensures Consistent(Run(EmptyAttrs, turns, JokeList).last, JokeList)
    ensures forall i :: 0 <= i < |turns| ==> Sound(Run(EmptyAttrs, turns, JokeList).responses[i], JokeList)
  {
    FromEmptySession(turns, JokeList);
  }
}
