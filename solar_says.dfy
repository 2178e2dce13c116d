/** The Solar Says skill: the same knock-knock dialog over a one-entry joke list. */
module SolarSays {
  import opened Wrappers
  import opened Responses
  import opened KnockKnock

  const PickleJoke := Joke("Pickle", "Pickle little flower to give to your mother.")

  /** JOKE_LIST; the two commented-out entries of the source are not part of it. */
  const JokeList: seq<Joke> := [PickleJoke]

  /** With one entry, the only index that can be drawn is 0. */
  lemma OnlyIndexIsZero(id: int)
    requires 0 <= id < |JokeList|
    ensures id == 0 && JokeList[id] == PickleJoke
  {
  }

  /** Starting a joke, by TellMeAJoke or by Launch, always stores the Pickle joke. */
  lemma StartStoresPickle(a: Attrs, req: Request, id: int)
    requires 0 <= id < |JokeList|
    requires req == Launch || req == TellMeAJokeIntent
    requires !Truthy(a.stage)
    ensures Step(a, req, JokeList, id).next == Attrs(Some(1), Some("Pickle"), Some(PickleJoke.punchline))
    ensures Step(a, req, JokeList, id).response.speech == Some("Knock knock!")
  {
  }

  /** Launch behaves exactly like TellMeAJoke. */
  lemma LaunchIsTellMeAJoke(a: Attrs, id: int)
    requires 0 <= id < |JokeList|
    ensures Step(a, Launch, JokeList, id) == Step(a, TellMeAJokeIntent, JokeList, id)
  {
  }

  /** TellMeAJoke at stage 1 or 2 resets the stage to 0 and keeps setup and punchline. */
  lemma RepeatResetsStage(a: Attrs, id: int)
    requires 0 <= id < |JokeList|
    requires a.stage == Some(1) || a.stage == Some(2)
    ensures Step(a, TellMeAJokeIntent, JokeList, id).next == a.(stage := Some(0))
  {
  }

  /** WhosThere at stage 1 speaks the setup and moves to stage 2. */
  lemma WhosThereSpeaksSetup(a: Attrs, id: int)
    requires 0 <= id < |JokeList|
    requires a.stage == Some(1)
    ensures Step(a, WhosThereIntent, JokeList, id).response.speech == a.setup
    ensures Step(a, WhosThereIntent, JokeList, id).next == a.(stage := Some(2))
  {
  }

  /** The out-of-order WhosThere at stage 2 and SetupNameWho at stage 1 leave all attributes as they were. */
  lemma OutOfOrderKeepsStage(a: Attrs, id: int)
    requires 0 <= id < |JokeList|
    ensures a.stage == Some(2) ==> Step(a, WhosThereIntent, JokeList, id).next == a
    ensures a.stage == Some(1) ==> Step(a, SetupNameWhoIntent, JokeList, id).next == a
  {
  }

  /** SetupNameWho at stage 2 ends the session with the punchline on a card still titled "Wise Guy". */
  lemma PunchlineEndsSession(a: Attrs, id: int)
    requires 0 <= id < |JokeList|
    requires a.stage == Some(2)
    ensures Step(a, SetupNameWhoIntent, JokeList, id).response == Tell(a.punchline, Card("Wise Guy", a.punchline))
  {
  }

  /** Help writes nothing and answers the stage-0 text for every stage but 1 and 2. */
  lemma HelpIsReadOnly(a: Attrs, id: int)
    requires 0 <= id < |JokeList|
    ensures Step(a, HelpIntent, JokeList, id).next == a
    ensures a.stage != Some(1) && a.stage != Some(2) ==>
      Step(a, HelpIntent, JokeList, id).response.speech == Some(HelpSpeech(Some(0)))
  {
  }

  /** Every conversation from a new session that ends the session ends it with the Pickle punchline. */
  lemma EveryEndingIsPickle(turns: seq<Turn>)
    requires DrawsFrom(turns, JokeList)
    ensures forall i :: 0 <= i < |turns| && Run(EmptyAttrs, turns, JokeList).responses[i].EndsSession() ==>
      Run(EmptyAttrs, turns, JokeList).responses[i].speech == Some(PickleJoke.punchline)
  {
    FromEmptySession(turns, JokeList);
  }
}
