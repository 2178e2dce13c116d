/**
 * The ScoreKeeper session events: the session-start flag reset and the
 * choice of welcome prompt on launch. The stored game is external; a launch
 * sees only its player count and whether all its scores are empty.
 */
module ScoreKeeperEvents {
  import opened Wrappers
  import opened Responses
  import ScoreKeeperText

  /** A decimal digit character. */
  predicate IsDigit(c: char) {
    '0' as int <= c as int <= '9' as int
  }

  /** The digit character of a value below 10. */
  function DigitChar(d: nat): (c: char)
    requires d < 10
    ensures IsDigit(c) && c as int - '0' as int == d
  {
    ('0' as int + d) as char
  }

  /** How JavaScript's `+` writes a natural number into a string: decimal, no leading zero. */
  function DecimalString(n: nat): (s: string)
    ensures |s| >= 1
    ensures forall i :: 0 <= i < |s| ==> IsDigit(s[i])
    ensures s[0] == '0' ==> n == 0
    decreases n
  {
    if n < 10 then [DigitChar(n)]
    else DecimalString(n / 10) + [DigitChar(n % 10)]
  }

  /** The value of a string of decimal digits. */
  function ParseDecimal(s: string): (n: nat)
    requires forall i :: 0 <= i < |s| ==> IsDigit(s[i])
    decreases |s|
  {
    if s == [] then 0
    else
      assert IsDigit(s[|s| - 1]);
      ParseDecimal(s[..|s| - 1]) * 10 + (s[|s| - 1] as int - '0' as int)
  }

  /** Reading the decimal text back gives the number: the text states it. */
  lemma {:induction false} DecimalRoundTrip(n: nat)
    ensures ParseDecimal(DecimalString(n)) == n
    decreases n
  {
    var s := DecimalString(n);
    if n >= 10 {
      DecimalRoundTrip(n / 10);
      assert s[..|s| - 1] == DecimalString(n / 10);
    }
  }

  const FirstPlayerPrompt := "ScoreKeeper, Let's start your game. Who's your first player?"
  const FirstPlayerReprompt := "Please tell me who is your first player?"
  const Intro := "ScoreKeeper, "
  const YouHave := "you have "
  const CountPrefix := Intro + YouHave
  const Noun := " player"
  const MenuText := "in the game. You can give a player points, add another player, reset all players or exit. Which would you like?"
  const MenuSuffix := " " + MenuText
  const OpenPrompt := "ScoreKeeper, What can I do for you?"

  /** The plural ending of "player": present exactly when there is more than one. */
  function PluralEnding(count: nat): (e: string)
    ensures e == "s" <==> count > 1
    ensures e == "" <==> count <= 1
  {
    if count > 1 then "s" else ""
  }

  /** The welcome for a game whose players all have empty scores. */
  function CountPrompt(count: nat): (s: string) {
    CountPrefix + DecimalString(count) + Noun + PluralEnding(count) + MenuSuffix
  }

  /**
   * The count prompt opens with the prefix, then the count in decimal (which
   * reads back as the count), then the word "player", with an "s" exactly
   * when the count is above one.
   */
  lemma CountPromptStatesCount(count: nat)
    ensures var digits := DecimalString(count);
      var s := CountPrompt(count);
      var k := |CountPrefix| + |digits|;
      && k + 8 <= |s|
      && s[..|CountPrefix|] == CountPrefix
      && ParseDecimal(s[|CountPrefix|..k]) == count
      && s[k..k + 7] == " player"
      && (s[k + 7] == 's' <==> count > 1)
  {
    var digits := DecimalString(count);
    var rest := PluralEnding(count) + MenuSuffix;
    DecimalRoundTrip(count);
    assert CountPrompt(count) == CountPrefix + digits + Noun + rest;
    assert rest[0] == if count > 1 then 's' else ' ';
    ConcatSlices(CountPrefix, digits, Noun, rest);
  }

  /** Where the four parts of a concatenation lie. */
  lemma ConcatSlices(a: string, b: string, c: string, d: string)
    requires |d| > 0
    ensures var s := a + b + c + d;
      && s[..|a|] == a
      && s[|a|..|a| + |b|] == b
      && s[|a| + |b|..|a| + |b| + |c|] == c
      && s[|a| + |b| + |c|] == d[0]
  {
  }

  /** The part of the skill context the event handlers touch. */
  class SkillContext {
    var needMoreHelp: bool

    constructor (needMoreHelp: bool)
      ensures this.needMoreHelp == needMoreHelp
    {
      this.needMoreHelp := needMoreHelp;
    }

    /** onSessionStarted: a session opened by a one-shot intent should not get the long help. */
    method OnSessionStarted()
      modifies this`needMoreHelp
      ensures !needMoreHelp
    {
      needMoreHelp := false;
    }
  }

  /**
   * The body of onLaunch's loadGame callback. No players: ask for the first
   * one; players but all scores empty: state the count and offer the menu;
   * otherwise the open question. The zero-player test comes first, and the
   * session stays open in every case.
   */
  method OnLaunch(playerCount: nat, isEmptyScore: bool) returns (r: Response)
    ensures r.Ask? && r.card == None
    ensures playerCount == 0 ==>
      r.speech == Some(FirstPlayerPrompt) && r.reprompt == Some(FirstPlayerReprompt)
    ensures playerCount > 0 && isEmptyScore ==>
      r.speech == Some(CountPrompt(playerCount)) && r.reprompt == Some(ScoreKeeperText.CompleteHelp)
    ensures playerCount > 0 && !isEmptyScore ==>
      r.speech == Some(OpenPrompt) && r.reprompt == Some(ScoreKeeperText.NextHelp)
  {
    var speech := "";
    var reprompt: string;
    if playerCount == 0 {
      speech := speech + FirstPlayerPrompt;
      reprompt := FirstPlayerReprompt;
      assert speech == FirstPlayerPrompt;
    } else if isEmptyScore {
      var count := DecimalString(playerCount);
      speech := speech + Intro + YouHave + count + Noun;
      assert speech == CountPrefix + count + Noun;
      ghost var counted := speech;
      if playerCount > 1 {
        speech := speech + "s";
      }
      assert speech == counted + PluralEnding(playerCount);
      speech := speech + MenuSuffix;
      reprompt := ScoreKeeperText.CompleteHelp;
    } else {
      speech := speech + OpenPrompt;
      reprompt := ScoreKeeperText.NextHelp;
      assert speech == OpenPrompt;
    }
    r := Ask(Some(speech), Some(reprompt), None);
  }
}
