/**
 * The two classifiers the BFCL rollout applies to every chat reply:
 * `_extract_raw_reply` (the raw step text kept for the reward stage) and
 * `_seems_function_call` (whether the turn goes on).
 */
module Reply {
  import opened Wrappers
  import opened Json
  import opened Text

  /** The `content` entry of a reply message: missing, JSON null, or a string. */
  datatype Content = NoContent | NullContent | TextContent(text: string)

  /** The assistant message of a chat completion; `toolCalls` is None when the key is missing. */
  datatype Message = Message(toolCalls: Option<Json>, content: Content)

  /** `"tool_calls" in message and message["tool_calls"]`, which is also `bool(message.get("tool_calls"))`. */
  predicate HasToolCalls(m: Message) {
    m.toolCalls.Some? && Truthy(m.toolCalls.value)
  }

  /** `message.get("content") or ""`. */
  function ContentText(m: Message): string {
    match m.content
    case TextContent(s) => s
    case _ => ""
  }

  /**
   * `_extract_raw_reply` as written: `message.get("content", "")` hands back
   * None when the content is JSON null, although the function promises a str.
   */
  function ExtractRawReplyAsWritten(m: Message): Option<string> {
    if HasToolCalls(m) then Some(Encode(JObj([("tool_calls", m.toolCalls.value)])))
    else match m.content
      case NoContent => Some("")
      case NullContent => None
      case TextContent(s) => Some(s)
  }

  /**
   * `_extract_raw_reply` with a null content read as "": the JSON text of
   * `{"tool_calls": ...}` when there are tool calls, the content otherwise.
   */
  function ExtractRawReply(m: Message): (r: string)
    ensures HasToolCalls(m) ==> r == "{\"" + "tool_calls" + "\": " + Encode(m.toolCalls.value) + "}"
    ensures !HasToolCalls(m) ==> r == ContentText(m)
    ensures ExtractRawReplyAsWritten(m).Some? ==> r == ExtractRawReplyAsWritten(m).value
  {
    if HasToolCalls(m) then
      EncodeIdentifierObject("tool_calls", m.toolCalls.value);
      Encode(JObj([("tool_calls", m.toolCalls.value)]))
    else ContentText(m)
  }

  /** A reply with a null content and no tool calls ends its turn with a step that is not a string. */
  lemma NullContentStepIsNone()
    ensures var m := Message(None, NullContent);
      ExtractRawReplyAsWritten(m) == None && !SeemsFunctionCall(m)
  {
    var m := Message(None, NullContent);
    assert Lower(ContentText(m)) == "";
  }

  // ---- the pattern \b[a-zA-Z_]\w*\s*\( searched with re.search

  /** The end of the run of word characters that starts at `p`. */
  function SkipWord(t: string, p: nat): (r: nat)
    requires p <= |t|
    ensures p <= r <= |t|
    ensures forall q :: p <= q < r ==> IsWordChar(t[q])
    ensures r == |t| || !IsWordChar(t[r])
    decreases |t| - p
  {
    if p == |t| || !IsWordChar(t[p]) then p else SkipWord(t, p + 1)
  }

  /** The end of the run of white space that starts at `p`. */
  function SkipSpace(t: string, p: nat): (r: nat)
    requires p <= |t|
    ensures p <= r <= |t|
    ensures forall q :: p <= q < r ==> IsSpace(t[q])
    ensures r == |t| || !IsSpace(t[r])
    decreases |t| - p
  {
    if p == |t| || !IsSpace(t[p]) then p else SkipSpace(t, p + 1)
  }

  /** The pattern matches from position `i`: the greedy runs end exactly at a `(`. */
  predicate CallAt(t: string, i: nat)
    requires i < |t|
  {
    && (i == 0 || !IsWordChar(t[i - 1]))
    && IsIdentStart(t[i])
    && var k := SkipSpace(t, SkipWord(t, i + 1));
       k < |t| && t[k] == '('
  }

  /** `re.search`: a scan for the first position from `i` on where the pattern matches. */
  predicate CallFrom(t: string, i: nat)
    decreases |t| - i
  {
    if i >= |t| then false else CallAt(t, i) || CallFrom(t, i + 1)
  }

  predicate HasCallPattern(t: string) {
    CallFrom(t, 0)
  }

  lemma {:induction false} CallFromMeaning(t: string, i: nat)
    ensures CallFrom(t, i) <==> exists k: nat | i <= k < |t| :: CallAt(t, k)
    decreases |t| - i
  {
    if i < |t| {
      CallFromMeaning(t, i + 1);
      if !CallAt(t, i) {
        assert forall k: nat | i <= k < |t| && CallAt(t, k) :: i + 1 <= k;
      }
    }
  }

  /** Positions i, j, k where `\b[a-zA-Z_]` sits at i, `\w*` covers (i, j), `\s*` covers [j, k) and `\(` is at k. */
  ghost predicate RegexMatch(t: string, i: int, j: int, k: int) {
    && 0 <= i < j <= k < |t|
    && (i == 0 || !IsWordChar(t[i - 1]))
    && IsIdentStart(t[i])
    && (forall q :: i < q < j ==> IsWordChar(t[q]))
    && (forall q :: j <= q < k ==> IsSpace(t[q]))
    && t[k] == '('
  }

  ghost predicate RegexSearch(t: string) {
    exists i, j, k :: RegexMatch(t, i, j, k)
  }

  /** A position where the greedy scan succeeds starts a match of the regular expression. */
  lemma CallAtMatches(t: string, i: nat)
    requires i < |t| && CallAt(t, i)
    ensures RegexMatch(t, i, SkipWord(t, i + 1), SkipSpace(t, SkipWord(t, i + 1)))
  {
  }

  /** Any match of the regular expression starts where the greedy scan succeeds. */
  lemma MatchIsCallAt(t: string, i: int, j: int, k: int)
    requires RegexMatch(t, i, j, k)
    ensures CallAt(t, i)
  {
    assert !IsWordChar(t[j]) && !IsSpace(t[k]);
    assert SkipWord(t, i + 1) == j;
    assert SkipSpace(t, j) == k;
  }

  /** The greedy scan finds a match exactly when the regular expression has one. */
  lemma CallPatternIsRegexSearch(t: string)
    ensures HasCallPattern(t) <==> RegexSearch(t)
  {
    CallFromMeaning(t, 0);
    if HasCallPattern(t) {
      var i: nat :| i < |t| && CallAt(t, i);
      CallAtMatches(t, i);
    }
    if RegexSearch(t) {
      var i, j, k :| RegexMatch(t, i, j, k);
      MatchIsCallAt(t, i, j, k);
    }
  }

  /** `_seems_function_call`. */
  predicate SeemsFunctionCall(m: Message) {
    || HasToolCalls(m)
    || var txt := Lower(ContentText(m));
       (Contains(txt, "\"function\"") && Contains(txt, "\"arguments\"")) || HasCallPattern(txt)
  }

  /**
   * A reply continues its turn iff it carries tool calls, or its lower-cased
   * content names both "function" and "arguments" in quotes, or matches
   * the call pattern.
   */
  lemma SeemsFunctionCallMeaning(m: Message)
    ensures SeemsFunctionCall(m) <==>
      || HasToolCalls(m)
      || (Contains(Lower(ContentText(m)), "\"function\"") && Contains(Lower(ContentText(m)), "\"arguments\""))
      || RegexSearch(Lower(ContentText(m)))
  {
    CallPatternIsRegexSearch(Lower(ContentText(m)));
  }
}
