/**
 * The knock-knock dialog shared by the Wise Guy and Solar Says skills.
 *
 * The session attributes `stage`, `setup` and `punchline` persist between
 * turns. Each intent handler tests `stage` with JavaScript truthiness, so an
 * absent stage and a stage of 0 take the same branch, and the handlers for
 * Who's-there and Setup-name-who compare `stage == 0` without assigning it.
 * The model follows that code as written.
 *
 * The pure step functions below say what one turn does to an attribute
 * value; the class `Session` holds the attributes as fields and its handler
 * methods update them in place, each proved against its step function.
 */
module KnockKnock {
  import opened Wrappers
  import opened Responses

  /** One entry of a skill's JOKE_LIST. */
  datatype Joke = Joke(setup: string, punchline: string)

  /** A value of the session attributes; `None` is an attribute never set. */
  datatype Attrs = Attrs(stage: Option<int>, setup: Option<string>, punchline: Option<string>)

  /** The attributes of a session that has just been opened. */
  const EmptyAttrs := Attrs(None, None, None)

  /** The requests the skill routes: a launch, or one of its four intents. */
  datatype Request = Launch | TellMeAJokeIntent | WhosThereIntent | SetupNameWhoIntent | HelpIntent

  /** The attributes after one turn, and what the skill answers. */
  datatype Transition = Transition(next: Attrs, response: Response)

  const CardTitle := "Wise Guy"
  const KnockLine := "Knock knock!"
  /** Said by a branch that no stage value can reach (a truthy stage is never 0). */
  const AlreadyKnockingLine := "knock knock!"
  const StartReprompt := "You can ask who's there"
  const NotHowLine := "That's not how knock knock jokes work! knock knock"
  const NotHowKnockLine := "That's not how knock knock jokes work! Knock knock!"
  const AskWhosThereReprompt := "You can ask who's there."
  const SorryLine := "Sorry, I couldn't correctly retrieve the joke. You can say, tell me a joke"
  const SayTellMeReprompt := "You can say, tell me a joke"
  const HelpStartText := "Knock knock jokes are a fun call and response type of joke. "
    + "To start the joke, just ask, by saying tell me a joke or you can say exit."
  const HelpWhosThereText := "You can ask, who's there or you can say exit."
  const HelpWhoText := "You can ask, who or you can say exit."

  /** JavaScript truthiness of the stage attribute: set and not 0. */
  predicate Truthy(stage: Option<int>) {
    stage.Some? && stage.value != 0
  }

  /** The text JavaScript's `+` produces for a possibly undefined string. */
  function JsText(s: Option<string>): (t: string)
    ensures s.Some? ==> t == s.value
    ensures s.None? ==> t == "undefined"
  {
    match s
    case Some(v) => v
    case None => "undefined"
  }

  /** The response `askWithCard(speech, "You can ask who's there", "Wise Guy", speech)`. */
  function StartAsk(speech: string): (r: Response) {
    Ask(Some(speech), Some(StartReprompt), Some(Card(CardTitle, Some(speech))))
  }

  /**
   * TellMeAJoke: from an absent or zero stage, store joke `id` and knock;
   * from any other stage, set the stage to 0 and complain, keeping the joke.
   */
  function TellMeAJokeStep(a: Attrs, jokes: seq<Joke>, id: int): (t: Transition)
    requires 0 <= id < |jokes|
    ensures a.stage == None || a.stage == Some(0) ==>
      t.next == Attrs(Some(1), Some(jokes[id].setup), Some(jokes[id].punchline))
      && t.response.speech == Some(KnockLine)
    ensures a.stage != None && a.stage != Some(0) ==>
      t.next.stage == Some(0) && t.next.setup == a.setup && t.next.punchline == a.punchline
      && t.response.speech == Some(NotHowLine)
    ensures t.next.stage == Some(1) <==> !Truthy(a.stage)
    ensures t.response.speech.Some? && t.response == StartAsk(t.response.speech.value)
    ensures t.response.speech != Some(AlreadyKnockingLine)
  {
    if Truthy(a.stage) then
      if a.stage == Some(0) then Transition(a, StartAsk(AlreadyKnockingLine))
      else Transition(a.(stage := Some(0)), StartAsk(NotHowLine))
    else
      assert a.stage == None || a.stage == Some(0);
      Transition(Attrs(Some(1), Some(jokes[id].setup), Some(jokes[id].punchline)), StartAsk(KnockLine))
  }

  /**
   * WhosThere: at stage 1 speak the stored setup and move to stage 2; at any
   * other truthy stage complain; at an absent or zero stage apologise.
   * Only stage 1 changes an attribute.
   */
  function WhosThereStep(a: Attrs): (t: Transition)
    ensures t.response.Ask? && t.response.card == None
    ensures a.stage == Some(1) ==>
      t.next == a.(stage := Some(2))
      && t.response.speech == a.setup
      && t.response.reprompt == Some("You can ask, " + JsText(a.setup) + " who?")
    ensures a.stage != Some(1) ==> t.next == a
    ensures Truthy(a.stage) && a.stage != Some(1) ==>
      t.response.speech == Some(NotHowLine) && t.response.reprompt == Some(AskWhosThereReprompt)
    ensures !Truthy(a.stage) ==>
      t.response.speech == Some(SorryLine) && t.response.reprompt == Some(SayTellMeReprompt)
  {
    if Truthy(a.stage) then
      if a.stage == Some(1) then
        Transition(a.(stage := Some(2)), Ask(a.setup, Some("You can ask, " + JsText(a.setup) + " who?"), None))
      else
        Transition(a, Ask(Some(NotHowLine), Some(AskWhosThereReprompt), None))
    else
      Transition(a, Ask(Some(SorryLine), Some(SayTellMeReprompt), None))
  }

  /**
   * SetupNameWho: at stage 2 end the session with the stored punchline;
   * otherwise keep it open with a complaint or an apology. It writes no
   * attribute, so only the answer depends on the stage.
   */
  function SetupNameWhoResponse(a: Attrs): (r: Response)
    ensures r.EndsSession() <==> a.stage == Some(2)
    ensures a.stage == Some(2) ==> r.speech == a.punchline && r.closingCard == Card(CardTitle, a.punchline)
    ensures Truthy(a.stage) && a.stage != Some(2) ==>
      r.speech == Some(NotHowKnockLine) && r.reprompt == Some(AskWhosThereReprompt)
    ensures !Truthy(a.stage) ==>
      r.speech == Some(SorryLine) && r.reprompt == Some(SayTellMeReprompt)
    ensures r.Ask? ==> r.card == Some(Card(CardTitle, r.speech))
  {
    if Truthy(a.stage) then
      if a.stage == Some(2) then
        Tell(a.punchline, Card(CardTitle, a.punchline))
      else
        Ask(Some(NotHowKnockLine), Some(AskWhosThereReprompt), Some(Card(CardTitle, Some(NotHowKnockLine))))
    else
      Ask(Some(SorryLine), Some(SayTellMeReprompt), Some(Card(CardTitle, Some(SorryLine))))
  }

  /** The help text for a stage, chosen by strict comparison with 0, 1 and 2. */
  function HelpSpeech(stage: Option<int>): (text: string) {
    match stage
    case Some(0) => HelpStartText
    case Some(1) => HelpWhosThereText
    case Some(2) => HelpWhoText
    case _ => HelpStartText
  }

  /** Help answers `response.ask(speech)`: no reprompt and no card. */
  function HelpResponse(stage: Option<int>): (r: Response)
    ensures r.Ask? && r.reprompt == None && r.card == None && r.speech.Some?
    ensures stage == Some(1) ==> r.speech == Some(HelpWhosThereText)
    ensures stage == Some(2) ==> r.speech == Some(HelpWhoText)
    ensures stage != Some(1) && stage != Some(2) ==> r.speech == Some(HelpStartText)
  {
    Ask(Some(HelpSpeech(stage)), None, None)
  }

  /** Routing of a request to its handler; Launch goes to TellMeAJoke. */
  function Step(a: Attrs, req: Request, jokes: seq<Joke>, id: int): (t: Transition)
    requires 0 <= id < |jokes|
    ensures req == HelpIntent || req == SetupNameWhoIntent ==> t.next == a
    ensures t.response.EndsSession() ==> req == SetupNameWhoIntent && a.stage == Some(2)
  {
    match req
    case Launch => TellMeAJokeStep(a, jokes, id)
    case TellMeAJokeIntent => TellMeAJokeStep(a, jokes, id)
    case WhosThereIntent => WhosThereStep(a)
    case SetupNameWhoIntent => Transition(a, SetupNameWhoResponse(a))
    case HelpIntent => Transition(a, HelpResponse(a.stage))
  }

  /** The session attributes of one conversation, updated in place by the handlers. */
  class Session {
    var stage: Option<int>
    var setup: Option<string>
    var punchline: Option<string>

    /** The attributes as a value. */
    function Value(): Attrs
      reads this
    {
      Attrs(stage, setup, punchline)
    }

    /** A new session carries no attributes. */
    constructor ()
      ensures Value() == EmptyAttrs
    {
      stage, setup, punchline := None, None, None;
    }

    /** handleTellMeAJokeIntent, with the random joke index passed in as `id`. */
    method TellMeAJoke(jokes: seq<Joke>, id: int) returns (r: Response)
      requires 0 <= id < |jokes|
      modifies this
      ensures Transition(Value(), r) == TellMeAJokeStep(old(Value()), jokes, id)
    {
      var speech := "";
      var reprompt := StartReprompt;
      if Truthy(stage) {
        if stage == Some(0) {
          speech := AlreadyKnockingLine;
        } else {
          stage := Some(0);
          speech := NotHowLine;
        }
      } else {
        stage := Some(1);
        setup := Some(jokes[id].setup);
        punchline := Some(jokes[id].punchline);
        speech := KnockLine;
      }
      r := Ask(Some(speech), Some(reprompt), Some(Card(CardTitle, Some(speech))));
    }

    /** eventHandlers.onLaunch: a launch is handled as TellMeAJoke. */
    method OnLaunch(jokes: seq<Joke>, id: int) returns (r: Response)
      requires 0 <= id < |jokes|
      modifies this
      ensures Transition(Value(), r) == Step(old(Value()), Launch, jokes, id)
    {
      r := TellMeAJoke(jokes, id);
    }

    /** handleWhosThereIntent. */
    method WhosThere() returns (r: Response)
      modifies this
      ensures Transition(Value(), r) == WhosThereStep(old(Value()))
    {
      var speech: Option<string> := Some("");
      var reprompt := "";
      if Truthy(stage) {
        if stage == Some(1) {
          speech := setup;
          stage := Some(2);
          reprompt := "You can ask, " + JsText(speech) + " who?";
        } else {
          speech := Some(NotHowLine);
          reprompt := AskWhosThereReprompt;
        }
      } else {
        speech := Some(SorryLine);
        reprompt := SayTellMeReprompt;
      }
      r := Ask(speech, Some(reprompt), None);
    }

    /** handleSetupNameWhoIntent: reads the attributes and writes none of them. */
    method SetupNameWho() returns (r: Response)
      ensures r == SetupNameWhoResponse(Value())
    {
      var speech: Option<string>;
      var reprompt := "";
      if Truthy(stage) {
        if stage == Some(2) {
          speech := punchline;
          r := Tell(speech, Card(CardTitle, speech));
        } else {
          speech := Some(NotHowKnockLine);
          reprompt := AskWhosThereReprompt;
          r := Ask(speech, Some(reprompt), Some(Card(CardTitle, speech)));
        }
      } else {
        speech := Some(SorryLine);
        reprompt := SayTellMeReprompt;
        r := Ask(speech, Some(reprompt), Some(Card(CardTitle, speech)));
      }
    }

    /** intentHandlers.HelpIntent: reads the stage and writes nothing. */
    method Help() returns (r: Response)
      ensures r == HelpResponse(stage)
    {
      var speech := "";
      if stage == Some(0) {
        speech := HelpStartText;
      } else if stage == Some(1) {
        speech := HelpWhosThereText;
      } else if stage == Some(2) {
        speech := HelpWhoText;
      } else {
        speech := HelpStartText;
      }
      r := Ask(Some(speech), None, None);
    }

    /** The skill's routing of a launch or an intent to its handler. */
    method Handle(req: Request, jokes: seq<Joke>, id: int) returns (r: Response)
      requires 0 <= id < |jokes|
      modifies this
      ensures Transition(Value(), r) == Step(old(Value()), req, jokes, id)
    {
      match req
      case Launch => r := OnLaunch(jokes, id);
      case TellMeAJokeIntent => r := TellMeAJoke(jokes, id);
      case WhosThereIntent => r := WhosThere();
      case SetupNameWhoIntent => r := SetupNameWho();
      case HelpIntent => r := Help();
    }
  }

  /** One turn of a conversation: the request and the random index drawn for it. */
  datatype Turn = Turn(request: Request, draw: int)

  /** The last attributes of a conversation and everything the skill said, in order. */
  datatype Trace = Trace(last: Attrs, responses: seq<Response>)

  /** Every random index of the turns lies in [0, |jokes|). */
  predicate DrawsFrom(turns: seq<Turn>, jokes: seq<Joke>) {
    forall i :: 0 <= i < |turns| ==> 0 <= turns[i].draw < |jokes|
  }

  /**
   * A conversation: one step per turn, starting from the attributes `a`.
   * A turn may follow a session-ending Tell on the same attributes, although
   * the skill would start the next request in a new, empty session. This
   * over-approximates real sessions: each one is a prefix of some Run, so
   * what holds for every Run holds for them.
   */
  function Run(a: Attrs, turns: seq<Turn>, jokes: seq<Joke>): (tr: Trace)
    requires DrawsFrom(turns, jokes)
    ensures |tr.responses| == |turns|
    decreases |turns|
  {
    if turns == [] then Trace(a, [])
    else
      var first := Step(a, turns[0].request, jokes, turns[0].draw);
      var rest := Run(first.next, turns[1..], jokes);
      Trace(rest.last, [first.response] + rest.responses)
  }

  /**
   * The attribute invariant of every conversation that starts from an empty
   * session: the stage is absent, 0, 1 or 2; a stage is set exactly when a
   * joke is stored; and a stored setup and punchline form one joke of the list.
   */
  predicate Consistent(a: Attrs, jokes: seq<Joke>) {
    && (a.stage == None || a.stage == Some(0) || a.stage == Some(1) || a.stage == Some(2))
    && (a.stage.Some? <==> a.setup.Some?)
    && (a.setup.Some? <==> a.punchline.Some?)
    && (a.setup.Some? ==> Joke(a.setup.value, a.punchline.value) in jokes)
  }

  /** A response whose speech is defined and which, when it ends the session, speaks a punchline of the list. */
  predicate Sound(r: Response, jokes: seq<Joke>) {
    && r.speech.Some?
    && (r.EndsSession() ==> exists k :: 0 <= k < |jokes| && r.speech.value == jokes[k].punchline)
  }

  lemma EmptyIsConsistent(jokes: seq<Joke>)
    ensures Consistent(EmptyAttrs, jokes)
  {
  }

  /** Every handler keeps the invariant. */
  lemma StepKeepsConsistent(a: Attrs, req: Request, jokes: seq<Joke>, id: int)
    requires 0 <= id < |jokes|
    requires Consistent(a, jokes)
    ensures Consistent(Step(a, req, jokes, id).next, jokes)
  {
  }

  /** From a consistent state every answer is defined text, and a session-ending answer is a punchline. */
  lemma StepIsSound(a: Attrs, req: Request, jokes: seq<Joke>, id: int)
    requires 0 <= id < |jokes|
    requires Consistent(a, jokes)
    ensures Sound(Step(a, req, jokes, id).response, jokes)
  {
  }

  /** Only a start from an absent or zero stage (source lines that store the drawn joke) writes setup or punchline. */
  lemma OnlyStartWritesJoke(a: Attrs, req: Request, jokes: seq<Joke>, id: int)
    requires 0 <= id < |jokes|
    ensures var n := Step(a, req, jokes, id).next;
      (n.setup != a.setup || n.punchline != a.punchline) ==>
        (req == Launch || req == TellMeAJokeIntent) && !Truthy(a.stage)
            && n.setup == Some(jokes[id].setup) && n.punchline == Some(jokes[id].punchline)
  {
  }

  /** A conversation from a consistent state stays consistent and only ever says sound things. */
  lemma {:induction false} RunIsSound(a: Attrs, turns: seq<Turn>, jokes: seq<Joke>)
    requires DrawsFrom(turns, jokes)
    requires Consistent(a, jokes)
    ensures Consistent(Run(a, turns, jokes).last, jokes)
    ensures forall i :: 0 <= i < |turns| ==> Sound(Run(a, turns, jokes).responses[i], jokes)
    decreases |turns|
  {
    if turns != [] {
      var first := Step(a, turns[0].request, jokes, turns[0].draw);
      StepKeepsConsistent(a, turns[0].request, jokes, turns[0].draw);
      StepIsSound(a, turns[0].request, jokes, turns[0].draw);
      assert DrawsFrom(turns[1..], jokes) by {
        forall i | 0 <= i < |turns[1..]| ensures 0 <= turns[1..][i].draw < |jokes| {
          assert turns[1..][i] == turns[i + 1];
        }
      }
      RunIsSound(first.next, turns[1..], jokes);
      var tr := Run(a, turns, jokes);
      var rest := Run(first.next, turns[1..], jokes);
      assert tr.responses == [first.response] + rest.responses;
      forall i | 0 <= i < |turns| ensures Sound(tr.responses[i], jokes) {
        if i > 0 {
          assert tr.responses[i] == rest.responses[i - 1];
        }
      }
    }
  }

  /** Every conversation that starts from an empty session keeps the invariant and says only sound things. */
  lemma FromEmptySession(turns: seq<Turn>, jokes: seq<Joke>)
    requires DrawsFrom(turns, jokes)
    ensures Consistent(Run(EmptyAttrs, turns, jokes).last, jokes)
    ensures forall i :: 0 <= i < |turns| ==> Sound(Run(EmptyAttrs, turns, jokes).responses[i], jokes)
  {
    EmptyIsConsistent(jokes);
    RunIsSound(EmptyAttrs, turns, jokes);
  }

  /**
   * The joke told in order: from an absent or zero stage, Launch, WhosThere
   * and SetupNameWho knock, speak the drawn joke's setup and end the session
   * with that joke's punchline. The stage is left at 2.
   */
  lemma HappyPath(a: Attrs, jokes: seq<Joke>, id: int, d2: int, d3: int)
    requires !Truthy(a.stage)
    requires 0 <= id < |jokes| && 0 <= d2 < |jokes| && 0 <= d3 < |jokes|
    ensures var j := jokes[id];
      var tr := Run(a, [Turn(Launch, id), Turn(WhosThereIntent, d2), Turn(SetupNameWhoIntent, d3)], jokes);
      && tr.responses == [
           StartAsk(KnockLine),
           Ask(Some(j.setup), Some("You can ask, " + j.setup + " who?"), None),
           Tell(Some(j.punchline), Card(CardTitle, Some(j.punchline)))]
      && tr.last == Attrs(Some(2), Some(j.setup), Some(j.punchline))
  {
    var turns := [Turn(Launch, id), Turn(WhosThereIntent, d2), Turn(SetupNameWhoIntent, d3)];
    var a1 := TellMeAJokeStep(a, jokes, id).next;
    var a2 := WhosThereStep(a1).next;
    assert turns[1..] == [Turn(WhosThereIntent, d2), Turn(SetupNameWhoIntent, d3)];
    assert turns[1..][1..] == [Turn(SetupNameWhoIntent, d3)];
    assert Run(a2, [Turn(SetupNameWhoIntent, d3)], jokes).responses == [SetupNameWhoResponse(a2)];
  }

  /**
   * An out-of-order TellMeAJoke at stage 1 or 2 keeps the joke but sets the
   * stage to 0, which the next WhosThere treats like an absent stage: it
   * apologises instead of speaking the setup.
   */
  lemma RestartLosesJoke(a: Attrs, jokes: seq<Joke>, d1: int, d2: int)
    requires a.stage == Some(1) || a.stage == Some(2)
    requires 0 <= d1 < |jokes| && 0 <= d2 < |jokes|
    ensures var tr := Run(a, [Turn(TellMeAJokeIntent, d1), Turn(WhosThereIntent, d2)], jokes);
      && tr.responses == [StartAsk(NotHowLine), Ask(Some(SorryLine), Some(SayTellMeReprompt), None)]
      && tr.last == a.(stage := Some(0))
  {
    var turns := [Turn(TellMeAJokeIntent, d1), Turn(WhosThereIntent, d2)];
    assert turns[1..] == [Turn(WhosThereIntent, d2)];
    var a1 := TellMeAJokeStep(a, jokes, d1).next;
    assert Run(a1, [Turn(WhosThereIntent, d2)], jokes).responses == [WhosThereStep(a1).response];
  }

  /** Help picks a distinct text for stages 0, 1 and 2; every other stage, absent included, gets the stage-0 text. */
  lemma HelpTexts(stage: Option<int>)
    ensures stage != Some(1) && stage != Some(2) ==> HelpSpeech(stage) == HelpSpeech(Some(0))
    ensures |{HelpSpeech(Some(0)), HelpSpeech(Some(1)), HelpSpeech(Some(2))}| == 3
  {
  }
}
