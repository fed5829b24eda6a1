/**
 * The decision and parsing logic of the LLM-backed chat service: the
 * configuration guard, the error replies, the `'No response from LLM'`
 * default, and the two regular-expression passes that pull suggested
 * colours out of the model's answer. The request itself is an outcome
 * handed in from outside.
 */
module LlmEngine {
  import opened Wrappers
  import opened Text
  import opened ColorMath
  import opened Entities

  /**
   * How the request turned out. `Answered` is an ok response, carrying
   * `data.choices?.[0]?.message?.content` when that is a string;
   * `Rejected` is a non-ok status with `JSON.stringify` of the error body
   * (`{}` when that body is not JSON); `Failed` is anything thrown on the
   * way, with its `error.message`.
   */
  datatype LlmOutcome =
    | Answered(content: Option<string>)
    | Rejected(status: nat, errorJson: string)
    | Failed(errorMessage: string)

  const NotConfiguredText := "I'm not properly configured to use an external LLM. Please check your API endpoint and key in the settings."
  const NoResponseText := "No response from LLM"
  const ErrorPrefix := "I encountered an error while trying to connect to the external LLM: "
  const ErrorSuffix := ". Please check your API endpoint and key."
  const RejectedPrefix := "API request failed: "

  /** `!this.endpoint || !this.apiKey` is false: both strings are non-empty. */
  predicate Configured(endpoint: string, apiKey: string) {
    endpoint != "" && apiKey != ""
  }

  /** `content || 'No response from LLM'`. */
  function ReplyText(content: Option<string>): (text: string)
    ensures text != ""
    ensures content.Some? && content.value != "" ==> text == content.value
    ensures content.None? || content.value == "" ==> text == NoResponseText
  {
    if content.Some? && content.value != "" then content.value else NoResponseText
  }

  /** The message of the error thrown for a non-ok status. */
  function RejectedMessage(status: nat, errorJson: string): string {
    RejectedPrefix + Decimal(status) + " " + errorJson
  }

  /** The reply of the `catch` block: the error's message quoted, no suggestions. */
  function ErrorReply(errorMessage: string): (r: ChatReply)
    ensures r.suggestedColors == []
    ensures OccursAt(r.message, errorMessage, |ErrorPrefix|)
  {
    var message := ErrorPrefix + errorMessage + ErrorSuffix;
    assert message[|ErrorPrefix|..|ErrorPrefix| + |errorMessage|] == errorMessage;
    ChatReply(message, [])
  }

  // ----- `hexCodeRegex`: /#([A-Fa-f0-9]{6}|[A-Fa-f0-9]{3})/g -----

  /** `#` and then six or three hex digits of either case. */
  predicate IsHexToken(t: string) {
    (|t| == 7 || |t| == 4) && t[0] == '#' && AllHex(t[1..])
  }

  /**
   * The length of the match of `hexCodeRegex` starting at `i`, 0 if none:
   * the six-digit alternative is tried first, then the three-digit one.
   */
  function TokenAt(s: string, i: nat): (n: nat)
    ensures n == 0 || n == 4 || n == 7
    ensures n > 0 ==> i + n <= |s| && IsHexToken(s[i..i + n])
    ensures n == 4 ==> !(i + 7 <= |s| && AllHex(s[i + 1..i + 7]))
    ensures n == 0 ==> !(i + 4 <= |s| && s[i] == '#' && AllHex(s[i + 1..i + 4]))
  {
    if i + 7 <= |s| && s[i] == '#' && AllHex(s[i + 1..i + 7]) then 7
    else if i + 4 <= |s| && s[i] == '#' && AllHex(s[i + 1..i + 4]) then
      assert s[i..i + 4][1..] == s[i + 1..i + 4];
      4
    else 0
  }

  /**
   * `s.match(hexCodeRegex) || []` scanned from `i`: the matches left to
   * right, each search resuming where the last match ended.
   */
  function HexTokensFrom(s: string, i: nat): seq<string>
    decreases |s| - i
  {
    if i >= |s| then []
    else
      var n := TokenAt(s, i);
      if n > 0 then [s[i..i + n]] + HexTokensFrom(s, i + n) else HexTokensFrom(s, i + 1)
  }

  /**
   * `s.match(hexCodeRegex) || []`: hex tokens only, and none at all exactly
   * when no position of the text starts one.
   */
  function HexTokens(s: string): (tokens: seq<string>)
    ensures forall k :: 0 <= k < |tokens| ==> IsHexToken(tokens[k])
    ensures tokens == [] <==> forall p :: 0 <= p < |s| ==> TokenAt(s, p) == 0
  {
    HexTokensWellFormed(s, 0);
    if forall p :: 0 <= p < |s| ==> TokenAt(s, p) == 0 then
      HexTokensNone(s, 0);
      HexTokensFrom(s, 0)
    else
      var p :| 0 <= p < |s| && TokenAt(s, p) > 0;
      HexTokensFindAny(s, 0, p);
      HexTokensFrom(s, 0)
  }

  /** Every token found is `#` plus six or three hex digits. */
  lemma {:induction false} HexTokensWellFormed(s: string, i: nat)
    ensures forall k :: 0 <= k < |HexTokensFrom(s, i)| ==> IsHexToken(HexTokensFrom(s, i)[k])
    decreases |s| - i
  {
    if i < |s| {
      var n := TokenAt(s, i);
      if n > 0 {
        HexTokensWellFormed(s, i + n);
      } else {
        HexTokensWellFormed(s, i + 1);
      }
    }
  }

  /** A text without `#` yields no token. */
  lemma {:induction false} HexTokensNeedHash(s: string, i: nat)
    requires forall j :: i <= j < |s| ==> s[j] != '#'
    ensures HexTokensFrom(s, i) == []
    decreases |s| - i
  {
    if i < |s| {
      HexTokensNeedHash(s, i + 1);
    }
  }

  /**
   * `toks` are slices of `s` at the positions `ps`, each the match of
   * `hexCodeRegex` there, at or after `i`, in increasing order and without
   * overlap.
   */
  predicate TokensAt(s: string, toks: seq<string>, ps: seq<nat>, i: nat) {
    |ps| == |toks| &&
    (forall k :: 0 <= k < |ps| ==>
      i <= ps[k] && TokenAt(s, ps[k]) == |toks[k]| > 0 && toks[k] == s[ps[k]..ps[k] + |toks[k]|]) &&
    (forall k :: 0 <= k < |ps| - 1 ==> ps[k] + |toks[k]| <= ps[k + 1])
  }

  /** Soundness: every token found occurs in the text where the regex matches, left to right. */
  lemma {:induction false} HexTokensSound(s: string, i: nat)
    ensures exists ps :: TokensAt(s, HexTokensFrom(s, i), ps, i)
    decreases |s| - i
  {
    if i >= |s| {
      assert HexTokensFrom(s, i) == [];
      assert TokensAt(s, [], [], i);
    } else if TokenAt(s, i) > 0 {
      var n := TokenAt(s, i);
      HexTokensSound(s, i + n);
      var ps :| TokensAt(s, HexTokensFrom(s, i + n), ps, i + n);
      TokensCons(s, i, HexTokensFrom(s, i + n), ps);
      assert HexTokensFrom(s, i) == [s[i..i + n]] + HexTokensFrom(s, i + n);
    } else {
      HexTokensSound(s, i + 1);
      var ps :| TokensAt(s, HexTokensFrom(s, i + 1), ps, i + 1);
      assert TokensAt(s, HexTokensFrom(s, i), ps, i);
    }
  }

  /** The token at `i` in front of tokens found from its end. */
  lemma TokensCons(s: string, i: nat, rest: seq<string>, ps: seq<nat>)
    requires TokenAt(s, i) > 0 && TokensAt(s, rest, ps, i + TokenAt(s, i))
    ensures TokensAt(s, [s[i..i + TokenAt(s, i)]] + rest, [i] + ps, i)
  {
    var toks := [s[i..i + TokenAt(s, i)]] + rest;
    var qs := [i] + ps;
    forall k | 0 <= k < |qs|
      ensures i <= qs[k] && TokenAt(s, qs[k]) == |toks[k]| > 0 && toks[k] == s[qs[k]..qs[k] + |toks[k]|]
    {
      if k > 0 { assert toks[k] == rest[k - 1] && qs[k] == ps[k - 1]; }
    }
    forall k | 0 <= k < |qs| - 1
      ensures qs[k] + |toks[k]| <= qs[k + 1]
    {
      if k > 0 { assert toks[k] == rest[k - 1] && qs[k] == ps[k - 1] && qs[k + 1] == ps[k]; }
    }
  }

  /** Completeness: the first position from `i` that starts a token gives the first token found. */
  lemma {:induction false} HexTokensFirst(s: string, i: nat, j: nat)
    requires i <= j && TokenAt(s, j) > 0
    requires forall p :: i <= p < j ==> TokenAt(s, p) == 0
    ensures HexTokensFrom(s, i) != [] && HexTokensFrom(s, i)[0] == s[j..j + TokenAt(s, j)]
    decreases j - i
  {
    if i < j {
      assert TokenAt(s, i) == 0;
      HexTokensFirst(s, i + 1, j);
    }
  }

  /** A token anywhere from `i` on means the scan finds at least one. */
  lemma {:induction false} HexTokensFindAny(s: string, i: nat, p: nat)
    requires i <= p < |s| && TokenAt(s, p) > 0
    ensures HexTokensFrom(s, i) != []
    decreases p - i
  {
    if i < p && TokenAt(s, i) == 0 {
      HexTokensFindAny(s, i + 1, p);
    }
  }

  /** No position from `i` on starts a token, so the scan finds none. */
  lemma {:induction false} HexTokensNone(s: string, i: nat)
    requires forall p :: i <= p < |s| ==> TokenAt(s, p) == 0
    ensures HexTokensFrom(s, i) == []
    decreases |s| - i
  {
    if i < |s| {
      HexTokensNone(s, i + 1);
    }
  }

  /** The two codes of a typical answer come out in the order they are written. */
  lemma TwoTokens()
    ensures HexTokens("Try #AABBCC and #112233") == ["#AABBCC", "#112233"]
  {
    var s := "Try #AABBCC and #112233";
    assert s[4..11] == "#AABBCC" && s[16..23] == "#112233";
    assert AllHex(s[5..11]) && AllHex(s[17..23]);
    assert TokenAt(s, 4) == 7 && TokenAt(s, 16) == 7;
    forall p | 0 <= p < 4 || 11 <= p < 16 || 23 <= p < |s|
      ensures TokenAt(s, p) == 0
    {
      assert s[p] != '#';
    }
    HexTokensNone(s, 23);
    HexTokensFirst(s, 11, 16);
    HexTokensFirst(s, 0, 4);
    assert HexTokensFrom(s, 16) == [s[16..23]] + HexTokensFrom(s, 23);
    assert HexTokensFrom(s, 11) == [s[16..23]];
    assert HexTokensFrom(s, 4) == [s[4..11]] + HexTokensFrom(s, 11);
    assert HexTokensFrom(s, 0) == HexTokensFrom(s, 4);
  }

  /** A text that opens with a token yields that token first. */
  lemma FirstTokenAtStart(text: string)
    requires TokenAt(text, 0) > 0
    ensures HexTokens(text) != [] && HexTokens(text)[0] == text[..TokenAt(text, 0)]
  {
  }

  // ----- `colorNameRegex`: /#([A-Fa-f0-9]{6}|[A-Fa-f0-9]{3})[^\n]*?([A-Za-z\s]+)/g -----

  /** A character of the class `[A-Za-z\s]`; `\s` includes the newline. */
  predicate IsNameChar(c: char) {
    'A' <= c <= 'Z' || 'a' <= c <= 'z' || IsJsWhitespace(c)
  }

  /**
   * Where the lazy `[^\n]*?` stops: the first index from `j` holding a
   * name character, or `|s|` when none is left. A newline is itself a
   * name character, so the lazy part never has to cross one.
   */
  function FirstNameChar(s: string, j: nat): (k: nat)
    requires j <= |s|
    ensures j <= k <= |s|
    ensures k < |s| ==> IsNameChar(s[k])
    ensures forall m :: j <= m < k ==> !IsNameChar(s[m]) && s[m] != '\n'
    decreases |s| - j
  {
    if j == |s| || IsNameChar(s[j]) then j else FirstNameChar(s, j + 1)
  }

  /** Where the greedy `[A-Za-z\s]+` stops: the end of the run of name characters from `j`. */
  function RunEnd(s: string, j: nat): (k: nat)
    requires j <= |s|
    ensures j <= k <= |s|
    ensures forall m :: j <= m < k ==> IsNameChar(s[m])
    ensures k < |s| ==> !IsNameChar(s[k])
    decreases |s| - j
  {
    if j < |s| && IsNameChar(s[j]) then RunEnd(s, j + 1) else j
  }

  /** One match: `s[start..end]` is `colorMatch[0]`, `s[nameStart..end]` is `colorMatch[2]`. */
  datatype NameMatch = NameMatch(start: nat, nameStart: nat, end: nat)

  /** What every match looks like: `#`, at least three hex digits, then a non-empty name run. */
  predicate WellPlaced(s: string, m: NameMatch) {
    m.start + 4 <= m.nameStart < m.end <= |s| && s[m.start] == '#' && AllHex(s[m.start + 1..m.start + 4])
  }

  /** The alternative with `digits` hex digits tried at `i`, with the backtracking the regex does. */
  function AltMatch(s: string, i: nat, digits: nat): (m: Option<NameMatch>)
    requires digits >= 3
    ensures m.Some? ==> m.value.start == i && WellPlaced(s, m.value) && m.value.end == RunEnd(s, m.value.nameStart)
  {
    if i + 1 + digits <= |s| && s[i] == '#' && AllHex(s[i + 1..i + 1 + digits]) then
      var j := FirstNameChar(s, i + 1 + digits);
      if j < |s| then
        assert s[i + 1..i + 4] == s[i + 1..i + 1 + digits][..3];
        Some(NameMatch(i, j, RunEnd(s, j)))
      else None
    else None
  }

  /** `colorNameRegex` anchored at `i`: six digits first, three when that fails. */
  function MatchAt(s: string, i: nat): (m: Option<NameMatch>)
    ensures m.Some? ==> m.value.start == i && WellPlaced(s, m.value) && m.value.end == RunEnd(s, m.value.nameStart)
  {
    var six := AltMatch(s, i, 6);
    if six.Some? then six else AltMatch(s, i, 3)
  }

  /** `colorNameRegex.exec(s)` with `lastIndex == from`: the first start at or after `from` that matches. */
  function NextMatch(s: string, from: nat): (m: Option<NameMatch>)
    ensures m.Some? ==> from <= m.value.start && WellPlaced(s, m.value) && m.value.end == RunEnd(s, m.value.nameStart)
    decreases |s| - from
  {
    if from >= |s| then None
    else if MatchAt(s, from).Some? then MatchAt(s, from)
    else NextMatch(s, from + 1)
  }

  /** No start in `from..to` matches. */
  predicate NoMatchBetween(s: string, from: nat, to: nat) {
    forall i :: from <= i < to ==> MatchAt(s, i).None?
  }

  /** The match `exec` returns is the one anchored at its start, and no earlier start matches. */
  lemma {:induction false} NextMatchLeftmost(s: string, from: nat)
    ensures var m := NextMatch(s, from);
      (m.Some? ==> MatchAt(s, m.value.start) == m && NoMatchBetween(s, from, m.value.start)) &&
      (m.None? ==> NoMatchBetween(s, from, |s|))
    decreases |s| - from
  {
    if from < |s| && MatchAt(s, from).None? {
      NextMatchLeftmost(s, from + 1);
      var m := NextMatch(s, from + 1);
      var to := if m.Some? then m.value.start else |s|;
      assert NoMatchBetween(s, from, to) by {
        assert NoMatchBetween(s, from + 1, to);
      }
    }
  }

  /** `colorMatch[0].match(hexCodeRegex)[0]`: the first hex token of the matched text. */
  function MatchedHex(s: string, m: NameMatch): (hex: string)
    requires WellPlaced(s, m)
    ensures IsHexToken(hex)
  {
    var text := s[m.start..m.end];
    SliceOfSlice(s, m.start, m.end, 1, 4);
    FirstTokenAtStart(text);
    HexTokens(text)[0]
  }

  /** `colorMatch[2].trim()`, or the lookup name when that is shorter than three characters. */
  function ChosenName(captured: string, hex: string, nameOf: ColorNamer): (name: string)
    ensures |Trim(captured)| < 3 ==> name == nameOf(hex)
    ensures |Trim(captured)| >= 3 ==> name == Trim(captured)
    ensures name == nameOf(hex) ||
      (|name| >= 3 && (exists i :: 0 <= i <= |captured| - |name| && OccursAt(captured, name, i)) &&
       !IsJsWhitespace(name[0]) && !IsJsWhitespace(name[|name| - 1]))
  {
    var name := Trim(captured);
    if |name| < 3 then nameOf(hex) else name
  }

  /** The entry the loop body pushes for one match. */
  function NamedEntry(s: string, m: NameMatch, nameOf: ColorNamer): NamedColor
    requires WellPlaced(s, m)
  {
    var hex := MatchedHex(s, m);
    NamedColor(hex, ChosenName(s[m.nameStart..m.end], hex, nameOf))
  }

  /** The entries of the `while (colorMatch = colorNameRegex.exec(s))` loop, from `lastIndex == from`. */
  function NamedColorsFrom(s: string, from: nat, nameOf: ColorNamer): (entries: seq<NamedColor>)
    ensures forall k :: 0 <= k < |entries| ==> IsHexToken(entries[k].hex)
    ensures from <= |s| ==> 5 * |entries| <= |s| - from
    decreases |s| - from
  {
    match NextMatch(s, from)
    case None => []
    case Some(m) =>
      var e := NamedEntry(s, m, nameOf);
      var rest := NamedColorsFrom(s, m.end, nameOf);
      ConsHexTokens(e, rest);
      [e] + rest
  }

  /** An entry carrying a hex token in front of entries that all carry one. */
  lemma ConsHexTokens(e: NamedColor, rest: seq<NamedColor>)
    requires IsHexToken(e.hex) && forall k :: 0 <= k < |rest| ==> IsHexToken(rest[k].hex)
    ensures forall k :: 0 <= k < |[e] + rest| ==> IsHexToken(([e] + rest)[k].hex)
  {
  }

  /** One round of the loop: a match found from `from` contributes its entry, and the search resumes at its end. */
  lemma NamedColorsStep(s: string, from: nat, nameOf: ColorNamer)
    ensures var next := NextMatch(s, from);
      NamedColorsFrom(s, from, nameOf)
        == if next.None? then [] else [NamedEntry(s, next.value, nameOf)] + NamedColorsFrom(s, next.value.end, nameOf)
  {
  }

  /** What the loop keeps: the entries pushed so far, then those still to be found, make the whole pass. */
  predicate PassedSoFar(text: string, from: nat, done: seq<NamedColor>, nameOf: ColorNamer) {
    from <= |text| && done + NamedColorsFrom(text, from, nameOf) == NamedColorsFrom(text, 0, nameOf)
  }

  /** One round keeps it: push the entry of the match, resume at its end. */
  lemma NamedPassRound(text: string, from: nat, done: seq<NamedColor>, nameOf: ColorNamer)
    requires NextMatch(text, from).Some? && PassedSoFar(text, from, done, nameOf)
    ensures var m := NextMatch(text, from).value;
      PassedSoFar(text, m.end, done + [NamedEntry(text, m, nameOf)], nameOf)
  {
    var m := NextMatch(text, from).value;
    var e, rest := NamedEntry(text, m, nameOf), NamedColorsFrom(text, m.end, nameOf);
    NamedColorsStep(text, from, nameOf);
    SnocThenRest(done, e, rest);
  }

  /** Once no match is left, what was pushed is the whole pass. */
  lemma NamedPassDone(text: string, from: nat, done: seq<NamedColor>, nameOf: ColorNamer)
    requires NextMatch(text, from).None? && PassedSoFar(text, from, done, nameOf)
    ensures done == NamedColorsFrom(text, 0, nameOf)
  {
    NamedColorsStep(text, from, nameOf);
    assert done + [] == done;
  }

  lemma SnocThenRest<T>(done: seq<T>, e: T, rest: seq<T>)
    ensures done + ([e] + rest) == (done + [e]) + rest
  {
  }

  /** The loop body: the hex of the matched text, and the trimmed name or the lookup. */
  method EntryOfMatch(text: string, m: NameMatch, nameOf: ColorNamer) returns (entry: NamedColor)
    requires WellPlaced(text, m)
    ensures entry == NamedEntry(text, m, nameOf)
  {
    var hex := MatchedHex(text, m);
    var captured := text[m.nameStart..m.end];
    var name := Trim(captured);
    if |name| < 3 {
      name := nameOf(hex);
    }
    entry := NamedColor(hex, name);
  }

  /** The named pass written as the source's loop over `exec`. */
  method NamedPass(text: string, nameOf: ColorNamer) returns (suggested: seq<NamedColor>)
    ensures suggested == NamedColorsFrom(text, 0, nameOf)
  {
    suggested := [];
    var lastIndex := 0;
    var colorMatch := NextMatch(text, lastIndex);
    while colorMatch.Some?
      invariant colorMatch == NextMatch(text, lastIndex)
      invariant PassedSoFar(text, lastIndex, suggested, nameOf)
      decreases |text| - lastIndex
    {
      var m := colorMatch.value;
      NamedPassRound(text, lastIndex, suggested, nameOf);
      var entry := EntryOfMatch(text, m, nameOf);
      suggested := suggested + [entry];
      lastIndex := m.end;
      colorMatch := NextMatch(text, lastIndex);
    }
    NamedPassDone(text, lastIndex, suggested, nameOf);
  }

  /** Every character is one of `[A-Za-z\s]`. */
  predicate AllNameChars(t: string) {
    forall i :: 0 <= i < |t| ==> IsNameChar(t[i])
  }

  /** A name as the named pass leaves it: the lookup, or three or more characters of `[A-Za-z\s]` opening and closing with a letter. */
  predicate AcceptedName(e: NamedColor, nameOf: ColorNamer) {
    e.name == nameOf(e.hex) ||
    (|e.name| >= 3 && AllNameChars(e.name) && !IsJsWhitespace(e.name[0]) && !IsJsWhitespace(e.name[|e.name| - 1]))
  }

  /** A slice of a run of name characters is one too. */
  lemma SliceNameChars(s: string, r: string, i: nat)
    requires AllNameChars(s) && OccursAt(s, r, i)
    ensures AllNameChars(r)
  {
    forall k | 0 <= k < |r|
      ensures IsNameChar(r[k])
    {
      assert r[k] == s[i + k];
    }
  }

  /** A name chosen from a run of name characters is accepted, and is the trimmed capture when that has three or more characters. */
  lemma ChosenNameAccepted(captured: string, hex: string, nameOf: ColorNamer)
    requires AllNameChars(captured)
    ensures AcceptedName(NamedColor(hex, ChosenName(captured, hex, nameOf)), nameOf)
    ensures |Trim(captured)| >= 3 ==> ChosenName(captured, hex, nameOf) == Trim(captured)
  {
    var name := Trim(captured);
    if |name| >= 3 {
      var i: nat :| TrimmedAt(captured, name, i);
      SliceNameChars(captured, name, i);
    }
  }

  /** A parsed suggestion: a hex token with an accepted name. */
  predicate ParsedShape(e: NamedColor, nameOf: ColorNamer) {
    IsHexToken(e.hex) && AcceptedName(e, nameOf)
  }

  predicate AllParsedShape(es: seq<NamedColor>, nameOf: ColorNamer) {
    forall k :: 0 <= k < |es| ==> ParsedShape(es[k], nameOf)
  }

  /** Each named entry carries a hex token and an accepted name; a trimmed capture of three or more characters is that name. */
  lemma NamedEntryShape(s: string, m: NameMatch, nameOf: ColorNamer)
    requires WellPlaced(s, m) && m.end == RunEnd(s, m.nameStart)
    ensures ParsedShape(NamedEntry(s, m, nameOf), nameOf)
    ensures var captured := Trim(s[m.nameStart..m.end]);
      |captured| >= 3 ==> NamedEntry(s, m, nameOf).name == captured
  {
    var captured := s[m.nameStart..m.end];
    assert AllNameChars(captured) by {
      forall i | 0 <= i < |captured|
        ensures IsNameChar(captured[i])
      {
        assert captured[i] == s[m.nameStart + i];
      }
    }
    ChosenNameAccepted(captured, MatchedHex(s, m), nameOf);
  }

  /** Every entry of the named pass is a hex token with an accepted name. */
  lemma {:induction false} NamedColorsShape(s: string, from: nat, nameOf: ColorNamer)
    ensures AllParsedShape(NamedColorsFrom(s, from, nameOf), nameOf)
    decreases |s| - from
  {
    var next := NextMatch(s, from);
    if next.Some? {
      var m := next.value;
      var e, rest := NamedEntry(s, m, nameOf), NamedColorsFrom(s, m.end, nameOf);
      assert NamedColorsFrom(s, from, nameOf) == [e] + rest;
      NamedEntryShape(s, m, nameOf);
      NamedColorsShape(s, m.end, nameOf);
      ConsShape(e, rest, nameOf);
    }
  }

  lemma ConsShape(e: NamedColor, rest: seq<NamedColor>, nameOf: ColorNamer)
    requires ParsedShape(e, nameOf) && AllParsedShape(rest, nameOf)
    ensures AllParsedShape([e] + rest, nameOf)
  {
  }

  /**
   * The backtracking at work: a trailing `#ABCDEF` with nothing after it
   * fails the six-digit alternative, so the regex settles for `#ABC` with
   * the name `DEF`, and the entry's hex is the first token of `#ABCDEF`.
   */
  lemma TrailingTokenBacktracks(nameOf: ColorNamer)
    ensures NamedColorsFrom("#ABCDEF", 0, nameOf) == [NamedColor("#ABCDEF", "DEF")]
  {
    var s := "#ABCDEF";
    var m := NameMatch(0, 4, 7);
    TrailingMatch();
    TrailingEntry(nameOf);
    NamedColorsStep(s, 0, nameOf);
    NamedColorsStep(s, 7, nameOf);
  }

  /** On `#ABCDEF` the six-digit alternative finds no name; the three-digit one takes `DEF`. */
  lemma TrailingMatch()
    ensures NextMatch("#ABCDEF", 0) == Some(NameMatch(0, 4, 7))
  {
    var s := "#ABCDEF";
    assert FirstNameChar(s, 7) == 7;
    assert AltMatch(s, 0, 6) == None;
    assert AllHex(s[1..4]) by {
      forall i | 0 <= i < 3
        ensures IsHexDigit(s[1..4][i])
      {
        assert s[1..4][i] == s[i + 1];
      }
    }
    assert IsNameChar(s[4]);
    assert FirstNameChar(s, 4) == 4;
    assert RunEnd(s, 4) == 7 by {
      assert RunEnd(s, 7) == 7;
      assert IsNameChar(s[6]) && IsNameChar(s[5]);
    }
    assert MatchAt(s, 0) == Some(NameMatch(0, 4, 7));
  }

  /** The entry for that match: the hex is the first token of the whole text, the name `DEF`. */
  lemma TrailingEntry(nameOf: ColorNamer)
    ensures WellPlaced("#ABCDEF", NameMatch(0, 4, 7))
    ensures NamedEntry("#ABCDEF", NameMatch(0, 4, 7), nameOf) == NamedColor("#ABCDEF", "DEF")
  {
    var s := "#ABCDEF";
    TrailingHex();
    assert s[4..7] == "DEF";
    KeptName("DEF", s, nameOf);
  }

  lemma TrailingHex()
    ensures WellPlaced("#ABCDEF", NameMatch(0, 4, 7))
    ensures MatchedHex("#ABCDEF", NameMatch(0, 4, 7)) == "#ABCDEF"
  {
    var s := "#ABCDEF";
    assert AllHex(s[1..7]) by {
      forall i | 0 <= i < 6
        ensures IsHexDigit(s[1..7][i])
      {
        assert s[1..7][i] == s[i + 1];
      }
    }
    assert AllHex(s[1..4]) by {
      assert s[1..4] == s[1..7][..3];
    }
    assert s[0..7] == s;
    assert TokenAt(s, 0) == 7;
    FirstTokenAtStart(s);
  }

  /** A captured name of three letters is kept as it is. */
  lemma KeptName(captured: string, hex: string, nameOf: ColorNamer)
    requires |captured| == 3 && forall i :: 0 <= i < 3 ==> 'A' <= captured[i] <= 'Z'
    ensures ChosenName(captured, hex, nameOf) == captured
  {
    assert !IsJsWhitespace(captured[0]) && !IsJsWhitespace(captured[2]);
    TrimKeeps(captured);
  }

  // ----- the fallback pass and the whole reply -----

  /** One lookup-named entry per token, in order. */
  function Fallback(tokens: seq<string>, nameOf: ColorNamer): seq<NamedColor> {
    seq(|tokens|, k requires 0 <= k < |tokens| => NamedColor(tokens[k], nameOf(tokens[k])))
  }

  /** The `for (const hex of hexMatches)` loop. */
  method FallbackPass(tokens: seq<string>, nameOf: ColorNamer) returns (suggested: seq<NamedColor>)
    ensures |suggested| == |tokens|
    ensures forall k :: 0 <= k < |tokens| ==> suggested[k] == NamedColor(tokens[k], nameOf(tokens[k]))
  {
    suggested := [];
    for i := 0 to |tokens|
      invariant |suggested| == i
      invariant forall k :: 0 <= k < i ==> suggested[k] == NamedColor(tokens[k], nameOf(tokens[k]))
    {
      var hex := tokens[i];
      suggested := suggested + [NamedColor(hex, nameOf(hex))];
    }
  }

  /** The suggestions parsed out of the reply text: the named pass, or the fallback when it found nothing. */
  function ParsedSuggestions(text: string, nameOf: ColorNamer): (suggested: seq<NamedColor>)
    ensures forall k :: 0 <= k < |suggested| ==> IsHexToken(suggested[k].hex)
    ensures suggested == [] <==> HexTokens(text) == []
  {
    var named := NamedColorsFrom(text, 0, nameOf);
    var tokens := HexTokens(text);
    assert NextMatch(text, 0).Some? ==> TokenAt(text, NextMatch(text, 0).value.start) > 0;
    if |named| == 0 && |tokens| > 0 then Fallback(tokens, nameOf) else named
  }

  /** What `LLMChatService.processMessage` resolves to, given how the request turned out. */
  function LlmReply(endpoint: string, apiKey: string, outcome: LlmOutcome, nameOf: ColorNamer): (r: ChatReply)
    ensures !Configured(endpoint, apiKey) ==> r == ChatReply(NotConfiguredText, [])
    ensures Configured(endpoint, apiKey) && outcome.Failed? ==>
      r.suggestedColors == [] && OccursAt(r.message, outcome.errorMessage, |ErrorPrefix|)
    ensures Configured(endpoint, apiKey) && outcome.Rejected? ==>
      r.suggestedColors == [] && OccursAt(r.message, RejectedMessage(outcome.status, outcome.errorJson), |ErrorPrefix|)
    ensures Configured(endpoint, apiKey) && outcome.Answered? ==>
      r.message == ReplyText(outcome.content) &&
      (r.suggestedColors == [] <==> HexTokens(r.message) == []) &&
      forall k :: 0 <= k < |r.suggestedColors| ==> IsHexToken(r.suggestedColors[k].hex)
  {
    if !Configured(endpoint, apiKey) then ChatReply(NotConfiguredText, [])
    else
      match outcome
      case Rejected(status, errorJson) => ErrorReply(RejectedMessage(status, errorJson))
      case Failed(errorMessage) => ErrorReply(errorMessage)
      case Answered(content) =>
        var text := ReplyText(content);
        ChatReply(text, ParsedSuggestions(text, nameOf))
  }

  /** The method body in the source's order: the guard, then the outcome, then the two passes. */
  method ProcessMessage(endpoint: string, apiKey: string, message: string, colors: seq<string>,
                        outcome: LlmOutcome, nameOf: ColorNamer)
    returns (reply: ChatReply)
    ensures reply == LlmReply(endpoint, apiKey, outcome, nameOf)
  {
    if endpoint == "" || apiKey == "" {
      return ChatReply(NotConfiguredText, []);
    }
    match outcome
    case Rejected(status, errorJson) =>
      reply := ErrorReply(RejectedMessage(status, errorJson));
    case Failed(errorMessage) =>
      reply := ErrorReply(errorMessage);
    case Answered(content) =>
      var llmResponse := ReplyText(content);
      var hexMatches := HexTokens(llmResponse);
      var suggestedColors := NamedPass(llmResponse, nameOf);
      if |suggestedColors| == 0 && |hexMatches| > 0 {
        suggestedColors := FallbackPass(hexMatches, nameOf);
        assert suggestedColors == Fallback(hexMatches, nameOf);
      }
      reply := ChatReply(llmResponse, suggestedColors);
  }

  // ----- properties of the reply -----

  /** Without an endpoint or a key the reply is the fixed text, whatever the request would have done. */
  lemma NotConfiguredReply(endpoint: string, apiKey: string, outcome: LlmOutcome, other: LlmOutcome, nameOf: ColorNamer)
    requires endpoint == "" || apiKey == ""
    ensures LlmReply(endpoint, apiKey, outcome, nameOf) == ChatReply(NotConfiguredText, [])
    ensures LlmReply(endpoint, apiKey, outcome, nameOf) == LlmReply(endpoint, apiKey, other, nameOf)
  {
  }

  /** A non-ok status or a thrown error gives no suggestions and a message quoting the error. */
  lemma ErrorRepliesQuote(endpoint: string, apiKey: string, outcome: LlmOutcome, nameOf: ColorNamer)
    requires Configured(endpoint, apiKey) && !outcome.Answered?
    ensures var r := LlmReply(endpoint, apiKey, outcome, nameOf);
      r.suggestedColors == [] &&
      Contains(r.message, if outcome.Failed? then outcome.errorMessage else RejectedMessage(outcome.status, outcome.errorJson))
  {
    var r := LlmReply(endpoint, apiKey, outcome, nameOf);
    var quoted := if outcome.Failed? then outcome.errorMessage else RejectedMessage(outcome.status, outcome.errorJson);
    assert r == ErrorReply(quoted);
    ContainsIn(r.message, quoted, |ErrorPrefix|);
  }

  /** The status code appears in the rejected-request message. */
  lemma RejectedMessageQuotesStatus(status: nat, errorJson: string)
    ensures OccursAt(RejectedMessage(status, errorJson), Decimal(status), |RejectedPrefix|)
  {
    var m := RejectedMessage(status, errorJson);
    assert m[|RejectedPrefix|..|RejectedPrefix| + |Decimal(status)|] == Decimal(status);
  }

  /** An answer with content is returned as the reply text unchanged; without content the text is the fixed default. */
  lemma AnswerTextKept(endpoint: string, apiKey: string, content: Option<string>, nameOf: ColorNamer)
    requires Configured(endpoint, apiKey)
    ensures var r := LlmReply(endpoint, apiKey, Answered(content), nameOf);
      (content.Some? && content.value != "" ==> r.message == content.value) &&
      (content.None? || content.value == "" ==> r.message == NoResponseText)
  {
  }

  /** When the named pass finds nothing, there is one lookup-named entry per hex token, in text order. */
  lemma FallbackWhenUnnamed(endpoint: string, apiKey: string, content: Option<string>, nameOf: ColorNamer)
    requires Configured(endpoint, apiKey)
    requires NamedColorsFrom(ReplyText(content), 0, nameOf) == []
    ensures var r := LlmReply(endpoint, apiKey, Answered(content), nameOf);
      var tokens := HexTokens(ReplyText(content));
      |r.suggestedColors| == |tokens| &&
      forall k :: 0 <= k < |tokens| ==> r.suggestedColors[k] == NamedColor(tokens[k], nameOf(tokens[k]))
  {
  }

  /** When the named pass finds something, its entries are the suggestions. */
  lemma NamedWhenFound(endpoint: string, apiKey: string, content: Option<string>, nameOf: ColorNamer)
    requires Configured(endpoint, apiKey)
    requires NamedColorsFrom(ReplyText(content), 0, nameOf) != []
    ensures LlmReply(endpoint, apiKey, Answered(content), nameOf).suggestedColors
      == NamedColorsFrom(ReplyText(content), 0, nameOf)
  {
  }

  /**
   * Every suggestion parsed from an answer is `#` plus six or three hex
   * digits, and its name is the lookup's or a trimmed name of at least
   * three characters.
   */
  lemma ParsedSuggestionsShape(text: string, nameOf: ColorNamer)
    ensures AllParsedShape(ParsedSuggestions(text, nameOf), nameOf)
  {
    var named, tokens := NamedColorsFrom(text, 0, nameOf), HexTokens(text);
    if |named| == 0 && |tokens| > 0 {
      var es := Fallback(tokens, nameOf);
      HexTokensWellFormed(text, 0);
      forall k | 0 <= k < |es|
        ensures ParsedShape(es[k], nameOf)
      {
        assert es[k] == NamedColor(tokens[k], nameOf(tokens[k]));
      }
    } else {
      NamedColorsShape(text, 0, nameOf);
    }
  }
}
