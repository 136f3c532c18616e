/** The keyword fallback of the intent engine: when the language-model
    service is unavailable, a message is classified by whole-word,
    case-insensitive trigger phrases tested in a fixed priority order, and the
    search query is the message with one leading action phrase removed. */
module IntentEngine {
  import opened Wrappers
  import opened PyText

  const PLAY_MUSIC: string := "play_music"
  const SEARCH_MUSIC: string := "search_music"
  const GET_RECOMMENDATIONS: string := "get_recommendations"
  const GET_CURRENT_USER: string := "get_current_user"
  const LIST_DEVICES: string := "list_devices"
  const UNKNOWN: string := "unknown"

  /** The actions an intent may name. */
  const ACTIONS: set<string> :=
    {PLAY_MUSIC, SEARCH_MUSIC, GET_RECOMMENDATIONS, GET_CURRENT_USER, LIST_DEVICES, UNKNOWN}

  /** A parsed intent as a dictionary: a key that is absent is None. */
  datatype Intent = Intent(
    action: Option<string>,
    query: Option<string>,
    extras: map<string, string>,
    source: Option<string>)

  // The alternatives of the trigger patterns, in the order they are written.
  const PLAY_TRIGGERS: seq<string> := ["play", "put on", "start", "listen to", "queue"]
  const SEARCH_TRIGGERS: seq<string> := ["search", "find", "look up", "show me", "what is"]
  const RECOMMEND_TRIGGERS: seq<string> := ["recommend", "suggest", "similar to", "like", "vibe"]
  const DEVICES_TRIGGERS: seq<string> := ["device", "devices", "speaker", "player", "where"]
  const USER_TRIGGERS: seq<string> := ["who am i", "logged in", "my account", "my profile"]

  /** The alternatives of the leading action phrase that is stripped off. */
  const PREFIXES: seq<string> := [
    "play", "put on", "start", "listen to", "queue", "search", "find", "look up", "show me",
    "recommend", "suggest", "something like", "songs like", "music like"]

  // -----------------------------------------------------------------------
  // Trigger patterns: `\b(p1|p2|...)\b` searched anywhere, ignoring case
  // -----------------------------------------------------------------------

  /** Phrase `p` (lower case) occurs at index `i` of `text`, ignoring case,
      with no word character just before or just after it. */
  predicate MatchAt(text: string, i: nat, p: string) {
    && i + |p| <= |text|
    && Lower(text[i..i + |p|]) == p
    && (i == 0 || !IsWordChar(text[i - 1]))
    && (i + |p| == |text| || !IsWordChar(text[i + |p|]))
  }

  /** The pattern made of the alternatives `ps` finds a match in `text`. */
  predicate Mentions(text: string, ps: seq<string>) {
    exists k, i :: 0 <= k < |ps| && 0 <= i <= |text| && MatchAt(text, i, ps[k])
  }

  // -----------------------------------------------------------------------
  // Prefix pattern: `^(p1|p2|...)\s+` replaced by nothing, ignoring case
  // -----------------------------------------------------------------------

  /** Alternative `p` matches at the start of `text` and is followed by at
      least one white-space character. */
  predicate PrefixAt(text: string, p: string) {
    |p| < |text| && Lower(text[..|p|]) == p && IsSpace(text[|p|])
  }

  /** The alternative the pattern uses: the first one, in the order written,
      that matches; `|ps|` when none does. */
  function PrefixChoice(text: string, ps: seq<string>): (k: nat)
    ensures k <= |ps|
    ensures forall j :: 0 <= j < k ==> !PrefixAt(text, ps[j])
    ensures k < |ps| ==> PrefixAt(text, ps[k])
  {
    if ps == [] then 0
    else if PrefixAt(text, ps[0]) then 0
    else 1 + PrefixChoice(text, ps[1..])
  }

  /** The substitution: removes the chosen action phrase and all the white
      space after it; leaves `text` alone when no alternative matches. The
      result is a suffix of `text`. */
  function StripPrefix(text: string): (r: string)
    ensures |r| <= |text| && r == text[|text| - |r|..]
    ensures PrefixChoice(text, PREFIXES) == |PREFIXES| ==> r == text
    ensures PrefixChoice(text, PREFIXES) < |PREFIXES| ==>
      var p := PREFIXES[PrefixChoice(text, PREFIXES)];
      && |r| < |text| - |p|
      && Lower(text[..|p|]) == p
      && AllSpace(text[|p|..|text| - |r|])
      && (r == [] || !IsSpace(r[0]))
  {
    var k := PrefixChoice(text, PREFIXES);
    if k == |PREFIXES| then text
    else
      var rest := text[|PREFIXES[k]|..];
      rest[LeadingSpaces(rest)..]
  }

  // -----------------------------------------------------------------------
  // The classifier
  // -----------------------------------------------------------------------

  /** `_parse_with_keywords`: user triggers first, then device triggers, then
      recommend, search and play, and a play request for the whole text when
      nothing matches. Every result names an action of the fixed set other
      than "unknown", has a stripped query and no extras. */
  function ParseWithKeywords(userInput: string): (r: Intent)
    ensures r.action.Some? && r.action.value in ACTIONS && r.action.value != UNKNOWN
    ensures r.query.Some? && IsStripped(r.query.value)
    ensures r.extras == map[] && r.source == None
  {
    var text := Strip(userInput);
    if Mentions(text, USER_TRIGGERS) then Intent(Some(GET_CURRENT_USER), Some(""), map[], None)
    else if Mentions(text, DEVICES_TRIGGERS) then Intent(Some(LIST_DEVICES), Some(""), map[], None)
    else
      var query := Strip(StripPrefix(text));
      if Mentions(text, RECOMMEND_TRIGGERS) then Intent(Some(GET_RECOMMENDATIONS), Some(query), map[], None)
      else if Mentions(text, SEARCH_TRIGGERS) then Intent(Some(SEARCH_MUSIC), Some(query), map[], None)
      else if Mentions(text, PLAY_TRIGGERS) then Intent(Some(PLAY_MUSIC), Some(query), map[], None)
      else Intent(Some(PLAY_MUSIC), Some(text), map[], None)
  }

  /** `parse` when the language-model service reports an error: the keyword
      result, tagged with its source. */
  function Fallback(userInput: string): (r: Intent)
    ensures r.source == Some("fallback")
    ensures r.(source := None) == ParseWithKeywords(userInput)
  {
    ParseWithKeywords(userInput).(source := Some("fallback"))
  }

  // -----------------------------------------------------------------------
  // Properties of the classifier
  // -----------------------------------------------------------------------

  /** The priority order: a user trigger wins over everything, a device
      trigger over everything else, then recommend over search over play.
      Each action is chosen only when a trigger of its family occurs, and the
      two families checked first always give an empty query. */
  lemma TriggerPriority(userInput: string)
    ensures var text := Strip(userInput);
      var a := ParseWithKeywords(userInput).action.value;
      && (Mentions(text, USER_TRIGGERS) <==> a == GET_CURRENT_USER)
      && (a == GET_CURRENT_USER || a == LIST_DEVICES ==> ParseWithKeywords(userInput).query == Some(""))
      && (a == LIST_DEVICES <==> !Mentions(text, USER_TRIGGERS) && Mentions(text, DEVICES_TRIGGERS))
      && (a == GET_RECOMMENDATIONS <==>
            && !Mentions(text, USER_TRIGGERS) && !Mentions(text, DEVICES_TRIGGERS)
            && Mentions(text, RECOMMEND_TRIGGERS))
      && (a == SEARCH_MUSIC <==>
            && !Mentions(text, USER_TRIGGERS) && !Mentions(text, DEVICES_TRIGGERS)
            && !Mentions(text, RECOMMEND_TRIGGERS) && Mentions(text, SEARCH_TRIGGERS))
      && (a == PLAY_MUSIC <==>
            && !Mentions(text, USER_TRIGGERS) && !Mentions(text, DEVICES_TRIGGERS)
            && !Mentions(text, RECOMMEND_TRIGGERS) && !Mentions(text, SEARCH_TRIGGERS))
  {
  }

  /** A message with no trigger at all is a play request for the whole
      stripped message. */
  lemma NoTriggerPlaysWholeText(userInput: string)
    requires var text := Strip(userInput);
      && !Mentions(text, USER_TRIGGERS) && !Mentions(text, DEVICES_TRIGGERS)
      && !Mentions(text, RECOMMEND_TRIGGERS) && !Mentions(text, SEARCH_TRIGGERS)
      && !Mentions(text, PLAY_TRIGGERS)
    ensures ParseWithKeywords(userInput) == Intent(Some(PLAY_MUSIC), Some(Strip(userInput)), map[], None)
  {
  }

  /** Removing the action phrase from a stripped text leaves a stripped text,
      so the second `strip()` changes nothing; and a non-empty text keeps a
      non-empty query. */
  lemma StripPrefixKeepsStripped(text: string)
    requires IsStripped(text)
    ensures IsStripped(StripPrefix(text))
    ensures text != [] ==> StripPrefix(text) != []
    ensures Strip(StripPrefix(text)) == StripPrefix(text)
  {
    var r := StripPrefix(text);
    if PrefixChoice(text, PREFIXES) < |PREFIXES| {
      var p := PREFIXES[PrefixChoice(text, PREFIXES)];
      assert IsSpace(text[|p|]);
      assert r[|r| - 1] == text[|text| - 1];
    }
    StrippedIsFixed(r);
  }

  /** A recommend, search or play request found by a trigger takes its
      query from the message with the action phrase removed. */
  lemma TriggeredQuery(userInput: string)
    requires var text := Strip(userInput);
      && !Mentions(text, USER_TRIGGERS) && !Mentions(text, DEVICES_TRIGGERS)
      && (Mentions(text, RECOMMEND_TRIGGERS) || Mentions(text, SEARCH_TRIGGERS) || Mentions(text, PLAY_TRIGGERS))
    ensures ParseWithKeywords(userInput).query == Some(Strip(StripPrefix(Strip(userInput))))
  {
  }

  /** What the substitution leaves: the text itself when no alternative
      matches, otherwise what follows the chosen phrase and its white space. */
  lemma StripPrefixTail(text: string)
    ensures var k := PrefixChoice(text, PREFIXES);
      && (k == |PREFIXES| ==> StripPrefix(text) == text)
      && (k < |PREFIXES| ==>
            && Lower(text[..|PREFIXES[k]|]) == PREFIXES[k]
            && StripPrefix(text) == text[|PREFIXES[k]| + LeadingSpaces(text[|PREFIXES[k]|..])..])
  {
    var k := PrefixChoice(text, PREFIXES);
    if k < |PREFIXES| {
      var n := |PREFIXES[k]|;
      assert text[n..][LeadingSpaces(text[n..])..] == text[n + LeadingSpaces(text[n..])..];
    }
  }

  /** For recommend, search and play requests found by a trigger, the
      second `strip()` is a no-op: the query is exactly what the substitution
      leaves (see `StripPrefixTail`), and it is empty only for an empty
      message. */
  lemma QueryAfterActionPhrase(userInput: string)
    requires var text := Strip(userInput);
      && !Mentions(text, USER_TRIGGERS) && !Mentions(text, DEVICES_TRIGGERS)
      && (Mentions(text, RECOMMEND_TRIGGERS) || Mentions(text, SEARCH_TRIGGERS) || Mentions(text, PLAY_TRIGGERS))
    ensures ParseWithKeywords(userInput).query == Some(StripPrefix(Strip(userInput)))
    ensures Strip(userInput) != [] ==> StripPrefix(Strip(userInput)) != []
  {
    TriggeredQuery(userInput);
    StripPrefixKeepsStripped(Strip(userInput));
  }

  /** Whatever the action, the query is a tail of the stripped message: all
      of it, what follows the action phrase, or nothing. */
  lemma QueryIsTail(userInput: string)
    ensures var text := Strip(userInput);
      var q := ParseWithKeywords(userInput).query.value;
      && |q| <= |text| && q == text[|text| - |q|..]
      && (q == "" ==> text == "" || Mentions(text, USER_TRIGGERS) || Mentions(text, DEVICES_TRIGGERS))
  {
    var text := Strip(userInput);
    if Mentions(text, USER_TRIGGERS) || Mentions(text, DEVICES_TRIGGERS) {
      assert ParseWithKeywords(userInput).query.value == "";
      assert text[|text|..] == "";
    } else if Mentions(text, RECOMMEND_TRIGGERS) || Mentions(text, SEARCH_TRIGGERS) || Mentions(text, PLAY_TRIGGERS) {
      QueryAfterActionPhrase(userInput);
    } else {
      NoTriggerPlaysWholeText(userInput);
      assert text[0..] == text;
    }
  }

  // -----------------------------------------------------------------------
  // Case-insensitivity and whole words
  // -----------------------------------------------------------------------

  lemma LowerWordChar(c: char)
    ensures IsWordChar(LowerChar(c)) == IsWordChar(c)
  {
  }

  lemma MatchAtLower(text: string, i: nat, p: string)
    ensures MatchAt(Lower(text), i, p) == MatchAt(text, i, p)
  {
    if i + |p| <= |text| {
      LowerSlice(text, i, i + |p|);
      LowerIdempotent(text[i..i + |p|]);
    }
    if i > 0 && i <= |text| {
      LowerWordChar(text[i - 1]);
    }
    if i + |p| < |text| {
      LowerWordChar(text[i + |p|]);
    }
  }

  /** A trigger pattern finds a match in a text exactly when it finds one in
      the lower-cased text. */
  lemma MentionsLower(text: string, ps: seq<string>)
    ensures Mentions(Lower(text), ps) == Mentions(text, ps)
  {
    if Mentions(text, ps) {
      var k, i :| 0 <= k < |ps| && 0 <= i <= |text| && MatchAt(text, i, ps[k]);
      MatchAtLower(text, i, ps[k]);
    }
    if Mentions(Lower(text), ps) {
      var k, i :| 0 <= k < |ps| && 0 <= i <= |Lower(text)| && MatchAt(Lower(text), i, ps[k]);
      MatchAtLower(text, i, ps[k]);
    }
  }

  /** Changing the case of the message never changes the action chosen. */
  lemma ActionIgnoresCase(userInput: string)
    ensures ParseWithKeywords(Lower(userInput)).action == ParseWithKeywords(userInput).action
  {
    var text := Strip(userInput);
    StripLower(userInput);
    MentionsLower(text, USER_TRIGGERS);
    MentionsLower(text, DEVICES_TRIGGERS);
    MentionsLower(text, RECOMMEND_TRIGGERS);
    MentionsLower(text, SEARCH_TRIGGERS);
    MentionsLower(text, PLAY_TRIGGERS);
  }

  /** `w` sits at index `i` of `s`, preceded and followed by white space
      or by an end of `s`. */
  predicate WordAt(s: string, i: nat, w: string) {
    && i + |w| <= |s| && s[i..i + |w|] == w
    && (i == 0 || IsSpace(s[i - 1]))
    && (i + |w| == |s| || IsSpace(s[i + |w|]))
  }

  lemma ShiftWordAt(s: string, n: nat, i: nat, w: string)
    requires n <= |s| && WordAt(s[n..], i, w)
    requires i > 0 || n == 0 || IsSpace(s[n - 1])
    ensures WordAt(s, n + i, w)
  {
    assert s[n + i..n + i + |w|] == s[n..][i..i + |w|];
  }

  /** Every word `split()` gives is somewhere in the text. */
  lemma {:induction false} WordPosition(s: string, w: string)
    requires w in Words(s)
    ensures exists i :: 0 <= i <= |s| && WordAt(s, i, w)
    decreases |s|
  {
    if IsSpace(s[0]) {
      assert Words(s) == Words(s[1..]);
      WordPosition(s[1..], w);
      var i :| 0 <= i <= |s[1..]| && WordAt(s[1..], i, w);
      ShiftWordAt(s, 1, i, w);
    } else {
      var n := WordLength(s);
      assert Words(s) == [s[..n]] + Words(s[n..]);
      if w == s[..n] {
        assert WordAt(s, 0, w);
      } else {
        WordPosition(s[n..], w);
        var i :| 0 <= i <= |s[n..]| && WordAt(s[n..], i, w);
        assert s[n..][0] == s[n] && IsSpace(s[n]);
        assert !IsSpace(w[0]);
        ShiftWordAt(s, n, i, w);
      }
    }
  }

  /** A one-word trigger phrase that is a word of the lower-cased message
      (as `lower().split()` gives them) is found by the pattern. */
  lemma WordTriggers(text: string, ps: seq<string>, k: nat)
    requires k < |ps| && ps[k] in Words(Lower(text))
    ensures Mentions(text, ps)
  {
    var w := ps[k];
    var s := Lower(text);
    WordPosition(s, w);
    var i :| 0 <= i <= |s| && WordAt(s, i, w);
    LowerSlice(text, i, i + |w|);
    if i > 0 {
      SpaceIsNoWord(text, i - 1);
    }
    if i + |w| < |s| {
      SpaceIsNoWord(text, i + |w|);
    }
    assert MatchAt(text, i, w);
  }

  /** White space in the lower-cased text is white space, not a word
      character, in the text. */
  lemma SpaceIsNoWord(text: string, j: nat)
    requires j < |text| && IsSpace(Lower(text)[j])
    ensures !IsWordChar(text[j])
  {
    LowerCharFacts(text[j]);
  }

  /** Whole words only: "display" holds the letters of "play" but is not a
      play request by trigger. */
  lemma WholeWordsOnly()
    ensures !Mentions("display", PLAY_TRIGGERS)
  {
    forall k, i | 0 <= k < |PLAY_TRIGGERS| && 0 <= i <= 7
      ensures !MatchAt("display", i, PLAY_TRIGGERS[k])
    {
      if k == 0 && i == 3 {
        assert IsWordChar("display"[2]);
      }
    }
  }
}
