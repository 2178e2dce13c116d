# Alexa example skills: dialog logic in Dafny

This project models the dialog logic of three voice skills built on the
Alexa Skills Kit for JavaScript:

- **Wise Guy** tells knock-knock jokes over several turns. The session
  attributes `stage`, `setup` and `punchline` carry the state from one turn
  to the next. Each intent handler reads them, may rewrite them, and answers
  with an *ask* (the session stays open) or a *tell* (the session ends).
- **Solar Says** runs the same handlers over a joke list with one entry.
- **ScoreKeeper** chooses a welcome prompt on launch from the number of
  players and whether every score is empty. It also normalises a recognised
  player name.

Module layout:

- `Wrappers` holds `Option`. `None` stands for a JavaScript `undefined`.
- `Responses` holds the response shape: `Ask(speech, reprompt, card)` or
  `Tell(speech, card)`.
- `KnockKnock` is the handler code shared by the two joke skills:
  - the pure step functions `TellMeAJokeStep`, `WhosThereStep`,
    `SetupNameWhoResponse`, `HelpResponse` and the router `Step`;
  - the class `Session`, whose fields are the session attributes and whose
    handler methods update them in place, each proved against its step
    function;
  - conversations (`Run`) and the invariant that holds in every
    conversation that starts from a new session.
- `WiseGuy` and `SolarSays` hold each skill's `JOKE_LIST` and apply the
  shared model to it.
- `ScoreKeeperText` holds `getPlayerName`, its blacklist and the two help
  texts.
- `ScoreKeeperEvents` holds `onSessionStarted` and the launch prompt choice.

The code is modelled as written, quirks included:

- `if (stage)` is JavaScript truthiness, so an absent stage and stage 0
  take the same branch.
- The `=== 0` test inside a truthy stage (wiseGuy/src/index.js:175-177,
  whose comment says the joke is already initialised) can never hold. The
  lower-case "knock knock!" it would say is proved never to be said.
- `session.attributes.stage == 0` in the Who's-there and Setup-name-who
  handlers (wiseGuy/src/index.js:217 and :250) is a comparison, not an
  assignment. Who's-there at stage 2 and Setup-name-who at stage 1 therefore
  leave the stage as it was.
- TellMeAJoke at stage 1 or 2 is the one out-of-order request that does
  reset: it sets the stage to 0 and keeps the joke
  (wiseGuy/src/index.js:179-182). The next Who's-there then apologises
  instead of speaking the setup (`RestartLosesJoke`).
- Setup-name-who at stage 2 leaves the stage at 2 when it ends the session.
  In the skill the next request opens a new session with empty attributes.
  A modelled conversation (`Run`) may go on past such a tell with the same
  attributes. This over-approximates real sessions: each real session is a
  prefix of some `Run`, so what is proved of every `Run` holds for them.

## Model

| member | source | states |
|---|---|---|
| `KnockKnock.TellMeAJokeStep` | wiseGuy/src/index.js:165-198 | From an absent or zero stage: stage becomes 1, setup and punchline come from entry `id`, and the speech is "Knock knock!". From any other stage: stage becomes 0, setup and punchline are kept, and the speech is the not-how-it-works line. Stage 1 results exactly when the old stage was falsy. The reprompt is always "You can ask who's there" and the card is "Wise Guy" over the speech. The unreachable "knock knock!" is never said. |
| `KnockKnock.WhosThereStep` | wiseGuy/src/index.js:203-233 | At stage 1: speaks the stored setup, moves to stage 2 and reprompts "You can ask, " + setup + " who?". At every other stage no attribute changes. At any other truthy stage: the not-how-it-works line with reprompt "You can ask who's there.". At an absent or zero stage: the sorry line with reprompt "You can say, tell me a joke". Always an ask with no card. |
| `KnockKnock.SetupNameWhoResponse` | wiseGuy/src/index.js:238-267 | The session ends exactly at stage 2, with the stored punchline as speech and as the content of a "Wise Guy" card. At any other truthy stage: the not-how-it-works line, reprompting "You can ask who's there.". At an absent or zero stage: the sorry line. Every ask carries a "Wise Guy" card over its speech. |
| `KnockKnock.HelpResponse` | wiseGuy/src/index.js:139-159 | Help asks with no reprompt and no card. Stage 1 gets the who's-there help text, stage 2 the who help text, and every other stage (0, absent or any other value) the how-to-start text. |
| `KnockKnock.Step` | wiseGuy/src/index.js:110-160 | The routing: Help and SetupNameWho never change an attribute. The only response that ends the session is SetupNameWho at stage 2. |
| `KnockKnock.Session.TellMeAJoke` | wiseGuy/src/index.js:165-198 | The in-place handler: the new attributes and its response are exactly those of `TellMeAJokeStep` on the old attributes. |
| `KnockKnock.Session.OnLaunch` | wiseGuy/src/index.js:110-114 | A launch updates the attributes and answers exactly as TellMeAJoke does. |
| `KnockKnock.Session.WhosThere` | wiseGuy/src/index.js:203-233 | The in-place handler: the new attributes and its response are those of `WhosThereStep`. |
| `KnockKnock.Session.SetupNameWho` | wiseGuy/src/index.js:238-267 | Changes nothing (no modifies clause) and answers `SetupNameWhoResponse` of the current attributes. |
| `KnockKnock.Session.Help` | wiseGuy/src/index.js:139-159 | Changes nothing and answers the help text for the current stage. |
| `KnockKnock.Session.Handle` | wiseGuy/src/index.js:126-160 | Routing each request to its handler gives exactly `Step` on the old attributes. |
| `KnockKnock.StepKeepsConsistent` | wiseGuy/src/index.js:165-267 | Every handler keeps the invariant. The invariant says the stage is absent, 0, 1 or 2; a stage is set exactly when setup and punchline are; and a stored setup and punchline form one entry of the list. |
| `KnockKnock.StepIsSound` | wiseGuy/src/index.js:207-247 | From a consistent state every answer's speech is defined. A session-ending answer speaks a punchline of the list. |
| `KnockKnock.OnlyStartWritesJoke` | wiseGuy/src/index.js:184-195 | Setup or punchline change only when Launch or TellMeAJoke starts a joke from an absent or zero stage. They then hold the drawn entry. |
| `KnockKnock.RunIsSound` | wiseGuy/src/index.js:165-267 | A whole conversation from a consistent state keeps the invariant, and every answer in it is sound. |
| `KnockKnock.FromEmptySession` | wiseGuy/src/index.js:165-267 | Every conversation from a new session keeps the invariant and gives only sound answers. |
| `KnockKnock.HappyPath` | wiseGuy/src/index.js:186-247 | From an absent or zero stage, Launch, WhosThere, SetupNameWho answer "Knock knock!", then the drawn setup, then a tell of the same entry's punchline. The first two are asks. The stage is left at 2. |
| `KnockKnock.RestartLosesJoke` | wiseGuy/src/index.js:172-230 | TellMeAJoke at stage 1 or 2 sets stage 0 and keeps the joke. The next WhosThere then gives the sorry line. |
| `KnockKnock.HelpTexts` | wiseGuy/src/index.js:142-156 | Stages 0, 1 and 2 get three distinct texts. Every other stage, absent included, gets the stage-0 text. |
| `WiseGuy.HappyPathFromNewSession` | wiseGuy/src/index.js:186-247 | On a new session the three turns say "Knock knock!", `JOKE_LIST[id].setup` and `JOKE_LIST[id].punchline`. Only the third ends the session. |
| `WiseGuy.Conversation` | wiseGuy/src/index.js:28-76 | Over the 45-entry list, every conversation from a new session keeps the invariant and gives only sound answers. |
| `SolarSays.OnlyIndexIsZero` | solarSays/src/index.js:28-32 | The only index that can be drawn is 0, the Pickle joke. |
| `SolarSays.StartStoresPickle` | solarSays/src/index.js:142-150 | Starting a joke from an absent or zero stage stores setup "Pickle" and its punchline at stage 1, and knocks. |
| `SolarSays.LaunchIsTellMeAJoke` | solarSays/src/index.js:66-70 | Launch gives exactly the transition of TellMeAJoke. |
| `SolarSays.RepeatResetsStage` | solarSays/src/index.js:128-139 | TellMeAJoke at stage 1 or 2 sets stage 0 and changes nothing else. |
| `SolarSays.WhosThereSpeaksSetup` | solarSays/src/index.js:164-171 | WhosThere at stage 1 speaks the stored setup and moves to stage 2. |
| `SolarSays.OutOfOrderKeepsStage` | solarSays/src/index.js:172-214 | WhosThere at stage 2 and SetupNameWho at stage 1 leave every attribute unchanged. |
| `SolarSays.PunchlineEndsSession` | solarSays/src/index.js:199-203 | SetupNameWho at stage 2 is a tell of the punchline, on a card titled "Wise Guy". |
| `SolarSays.HelpIsReadOnly` | solarSays/src/index.js:95-115 | Help changes no attribute. Every stage other than 1 and 2 gets the stage-0 text. |
| `SolarSays.EveryEndingIsPickle` | solarSays/src/index.js:194-223 | In every conversation from a new session, any answer that ends the session speaks the Pickle punchline. |
| `ScoreKeeperText.IndexOf` | scoreKeeper/src/textHelper.js:26 | Returns the first position of the character, or -1 exactly when it is absent. No earlier position holds it. |
| `ScoreKeeperText.GetPlayerName` | scoreKeeper/src/textHelper.js:20-38 | An absent or empty input gives undefined. A defined result has no space, is a prefix of the input, and is not blacklisted. It is the whole input when the input has no space; otherwise it ends at the first space. |
| `ScoreKeeperText.GetPlayerNameIsFirstWord` | scoreKeeper/src/textHelper.js:26-38 | The result equals an independent first-word definition: undefined for the empty string or a blacklisted first word, otherwise that word. |
| `ScoreKeeperText.RejectedExactly` | scoreKeeper/src/textHelper.js:23-37 | undefined comes back if and only if the input is absent or empty, or its first word is "player" or "players". |
| `ScoreKeeperText.LeadingSpaceGivesEmptyName` | scoreKeeper/src/textHelper.js:26-33 | An input starting with a space gives the empty string, not undefined. |
| `ScoreKeeperText.Idempotent` | scoreKeeper/src/textHelper.js:26-38 | A non-empty result normalises to itself. |
| `ScoreKeeperText.ExampleDropsSurname` | scoreKeeper/src/textHelper.js:29-33 | "Bob Smith" normalises to "Bob". |
| `ScoreKeeperText.ExampleRejectsPlayers` | scoreKeeper/src/textHelper.js:34-37 | "players list" and "player" are rejected. |
| `ScoreKeeperText.ExampleCaseSensitive` | scoreKeeper/src/textHelper.js:5-8 | The blacklist is case-sensitive: "Player" comes back unchanged. |
| `ScoreKeeperEvents.SkillContext.OnSessionStarted` | scoreKeeper/src/eventHandlers.js:8-12 | Sets `needMoreHelp` to false. It may modify that field only. |
| `ScoreKeeperEvents.OnLaunch` | scoreKeeper/src/eventHandlers.js:17-36 | Always an ask with no card (the session stays open), and it changes nothing. With no players it asks for the first player. With players and all scores empty it gives the count prompt with reprompt `completeHelp`. Otherwise it gives "ScoreKeeper, What can I do for you?" with reprompt `nextHelp`. The zero-player test wins. |
| `ScoreKeeperEvents.CountPromptStatesCount` | scoreKeeper/src/eventHandlers.js:23-29 | The count prompt starts "ScoreKeeper, you have ". The digits that follow read back as the player count. Then comes " player", followed by an "s" exactly when the count is above 1. |
| `ScoreKeeperEvents.DecimalString` | scoreKeeper/src/eventHandlers.js:25 | The number as JavaScript writes it into a string: decimal digits only, and no leading zero. |
| `ScoreKeeperEvents.DecimalRoundTrip` | scoreKeeper/src/eventHandlers.js:25 | Parsing the decimal text gives back the number. |

## Left out

- Random joke choice (`Math.floor(Math.random() * JOKE_LIST.length)`) is not modelled. The drawn index is a parameter in [0, |JOKE_LIST|), and no floating point is modelled.
- The SDK is not modelled: `exports.handler`, `skill.execute`, the `AlexaSkill` prototype chain and how `ask`, `askWithCard` and `tellWithCard` serialise a response. Responses are a datatype, and the SDK's handling of unknown intents is not part of this model.
- The `console.log` calls in the session-start, session-end and launch handlers are logging only. The joke skills' `onSessionStarted` and `onSessionEnded` do nothing else.
- `storage.loadGame` and the stored game are not modelled: DynamoDB, the asynchronous callback and `isEmptyScore()`. The launch prompt takes the player count and the `isEmptyScore()` result as inputs.
- `scoreKeeper/src/index.js` is handler wiring only.
- The AddPlayer, GivePoints, Reset and GetScore handlers are not part of this model.
- GetPlayerName: the blacklist is taken as exactly {"player", "players"}. In the source, `nameBlacklist[newName]` also finds inherited object keys such as "constructor" or "toString". Those inputs are rejected there but returned by the model.
- The stage attribute is modelled as an optional integer. A non-numeric stored value (a string, say) is not part of this model.
- The header comment of the Solar Says source describes a different dialog ("Guess what Solar said"). The model follows the code.
