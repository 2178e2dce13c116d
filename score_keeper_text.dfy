/**
 * The ScoreKeeper text helper: its two help texts and the normalisation of a
 * recognised player name (keep the first word, reject generic nouns that
 * signal a misrecognition).
 */
module ScoreKeeperText {
  import opened Wrappers

  /** nameBlacklist, taken as exactly the set of its two keys. */
  const Blacklist: set<string> := {"player", "players"}

  const CompleteHelp := "Here's some things you can say,"
    + " add john."
    + " give john 5 points."
    + " tell me the score."
    + " new game."
    + " reset."
    + " and exit."

  const NextHelp := "You can give a player points, add a player, get the current score, or say help. What would you like?"

  /** String.prototype.indexOf for one character: its first position in `s`, or -1. */
  function IndexOf(s: string, c: char): (i: int)
    ensures -1 <= i < |s|
    ensures i >= 0 ==> s[i] == c && c !in s[..i]
    ensures i < 0 <==> c !in s
  {
    if s == [] then -1
    else if s[0] == c then 0
    else
      var j := IndexOf(s[1..], c);
      assert s[1..][..j + 1] == s[1..j + 2] by { assert j + 1 <= |s[1..]|; }
      if j < 0 then -1 else j + 1
  }

  /** The characters of `s` before its first space (a reference definition, one character at a time). */
  function FirstWord(s: string): (w: string)
    decreases |s|
  {
    if s == [] || s[0] == ' ' then [] else [s[0]] + FirstWord(s[1..])
  }

  /**
   * getPlayerName: an absent or empty name gives undefined; otherwise the
   * text before the first space, or all of it when there is none, unless
   * that is on the blacklist.
   */
  function GetPlayerName(recognized: Option<string>): (r: Option<string>)
    ensures recognized == None || recognized == Some("") ==> r == None
    ensures r.Some? ==> recognized.Some? && ' ' !in r.value && r.value <= recognized.value
    ensures r.Some? && ' ' !in recognized.value ==> r.value == recognized.value
    ensures r.Some? && ' ' in recognized.value ==> recognized.value[|r.value|] == ' '
    ensures r.Some? ==> r.value !in Blacklist
  {
    if recognized == None || recognized.value == "" then None
    else
      var s := recognized.value;
      var split := IndexOf(s, ' ');
      var newName := if split < 0 then s else s[..split];
      if newName in Blacklist then None else Some(newName)
  }

  /** A prefix of `s` that has no space and ends at a space or at the end of `s` is its first word. */
  lemma {:induction false} FirstWordIsPrefixBeforeSpace(s: string, k: int)
    requires 0 <= k <= |s|
    requires ' ' !in s[..k]
    requires k == |s| || s[k] == ' '
    ensures FirstWord(s) == s[..k]
    decreases |s|
  {
    if k > 0 {
      assert s[0] == s[..k][0];
      assert s[1..][..k - 1] == s[1..k];
      var rest := s[1..k];
      assert ' ' !in rest by {
        forall i | 0 <= i < |rest| ensures rest[i] != ' ' {
          assert rest[i] == s[..k][i + 1];
        }
      }
      FirstWordIsPrefixBeforeSpace(s[1..], k - 1);
      assert s[..k] == [s[0]] + s[1..k];
    }
  }

  /** getPlayerName agrees with the reference definition: the first word, unless the input is empty or the word is blacklisted. */
  lemma GetPlayerNameIsFirstWord(s: string)
    ensures GetPlayerName(Some(s)) == if s == "" || FirstWord(s) in Blacklist then None else Some(FirstWord(s))
  {
    if s != "" {
      var split := IndexOf(s, ' ');
      if split < 0 {
        assert s[..|s|] == s;
        FirstWordIsPrefixBeforeSpace(s, |s|);
      } else {
        FirstWordIsPrefixBeforeSpace(s, split);
      }
    }
  }

  /** undefined comes back exactly for an absent or empty input, or a blacklisted first word. */
  lemma RejectedExactly(recognized: Option<string>)
    ensures GetPlayerName(recognized) == None <==>
      recognized == None || recognized == Some("") || FirstWord(recognized.value) in Blacklist
  {
    if recognized.Some? {
      GetPlayerNameIsFirstWord(recognized.value);
    }
  }

  /** An input that begins with a space gives the empty name, not undefined. */
  lemma LeadingSpaceGivesEmptyName(s: string)
    requires s != "" && s[0] == ' '
    ensures GetPlayerName(Some(s)) == Some("")
  {
  }

  /** A non-empty normalised name normalises to itself. */
  lemma Idempotent(recognized: Option<string>, r: string)
    requires GetPlayerName(recognized) == Some(r)
    requires r != ""
    ensures GetPlayerName(Some(r)) == Some(r)
  {
  }

  /** A position holding `c` with no `c` before it is what IndexOf returns. */
  lemma IndexOfAt(s: string, c: char, k: int)
    requires 0 <= k < |s| && s[k] == c && c !in s[..k]
    ensures IndexOf(s, c) == k
  {
    assert s[k] == c;
  }

  /** A surname is dropped. */
  lemma ExampleDropsSurname()
    ensures GetPlayerName(Some("Bob Smith")) == Some("Bob")
  {
    var s := "Bob Smith";
    assert s[..3] == "Bob";
    assert ' ' !in "Bob";
    IndexOfAt(s, ' ', 3);
    assert "Bob" !in Blacklist;
  }

  /** A blacklisted first word is rejected. */
  lemma ExampleRejectsPlayers()
    ensures GetPlayerName(Some("players list")) == None
    ensures GetPlayerName(Some("player")) == None
  {
    var s := "players list";
    assert s[..7] == "players";
    assert ' ' !in "players";
    IndexOfAt(s, ' ', 7);
    assert ' ' !in "player";
  }

  /** The blacklist check is case-sensitive. */
  lemma ExampleCaseSensitive()
    ensures GetPlayerName(Some("Player")) == Some("Player")
  {
    assert ' ' !in "Player";
    assert "Player" !in Blacklist;
  }
}
