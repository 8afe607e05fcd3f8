/**
 * Conversion from the chat client's message list to engine messages: the most recent user
 * text, and the user messages that carry text or function responses to the engine.
 */
module TanstackToAdk {
  import opened Wrappers
  import opened Adk

  /** Python's `str.isspace` for one character. */
  predicate IsSpace(c: char) {
    || ('\t' <= c <= '\r') || ('\U{1c}' <= c <= '\U{1f}') || c == ' '
    || c == '\U{85}' || c == '\U{a0}' || c == '\U{1680}' || ('\U{2000}' <= c <= '\U{200a}')
    || c == '\U{2028}' || c == '\U{2029}' || c == '\U{202f}' || c == '\U{205f}' || c == '\U{3000}'
  }

  /** The number of whitespace characters `s` starts with. */
  function LeadingSpaces(s: string): (n: nat)
    ensures n <= |s|
    ensures forall i :: 0 <= i < n ==> IsSpace(s[i])
    ensures n < |s| ==> !IsSpace(s[n])
  {
    if s != [] && IsSpace(s[0]) then 1 + LeadingSpaces(s[1..]) else 0
  }

  /** The number of whitespace characters `s` ends with. */
  function TrailingSpaces(s: string): (n: nat)
    ensures n <= |s|
    ensures forall i :: |s| - n <= i < |s| ==> IsSpace(s[i])
    ensures n < |s| ==> !IsSpace(s[|s| - n - 1])
  {
    if s != [] && IsSpace(s[|s| - 1]) then 1 + TrailingSpaces(s[..|s| - 1]) else 0
  }

  /**
   * Where `str.strip()` cuts `s`: everything before the first bound and from the second one on
   * is whitespace, and what lies between neither starts nor ends with whitespace.
   */
  function StripBounds(s: string): (b: (nat, nat))
    ensures b.0 <= b.1 <= |s|
    ensures forall k :: 0 <= k < b.0 ==> IsSpace(s[k])
    ensures forall k :: b.1 <= k < |s| ==> IsSpace(s[k])
    ensures b.0 < b.1 ==> !IsSpace(s[b.0]) && !IsSpace(s[b.1 - 1])
  {
    var i := LeadingSpaces(s);
    var n := TrailingSpaces(s[i..]);
    assert forall k :: |s| - n <= k < |s| ==> s[k] == s[i..][k - i];
    (i, |s| - n)
  }

  /** `str.strip()`: `s` without its leading and trailing whitespace. */
  function Strip(s: string): (r: string)
    ensures r == [] <==> forall k :: 0 <= k < |s| ==> IsSpace(s[k])
    ensures r != [] ==> !IsSpace(r[0]) && !IsSpace(r[|r| - 1])
  {
    var b := StripBounds(s);
    assert b.0 < b.1 ==> s[b.0..b.1][0] == s[b.0];
    s[b.0..b.1]
  }

  /** Stripping an already stripped text changes nothing. */
  lemma StripIdempotent(s: string)
    ensures Strip(Strip(s)) == Strip(s)
  {
    var r := Strip(s);
    if r != [] {
      assert LeadingSpaces(r) == 0;
      assert r[0..] == r;
      assert TrailingSpaces(r) == 0;
    }
  }

  /**
   * A part of a message whose content is a list. `isTextDict` holds when the part is a
   * dictionary whose `type` is "text"; `content` is its `content` entry, "" when missing.
   */
  datatype ContentPart = ContentPart(isTextDict: bool, content: string)

  /** A message's `content`: a string, a list of parts, or anything else. */
  datatype MessageContent = TextContent(text: string) | PartsContent(parts: seq<ContentPart>) | OtherContent

  datatype Message = Message(role: Option<string>, content: MessageContent)

  /** `"".join(part.get("content", "") for each text part)`. */
  function JoinTextParts(parts: seq<ContentPart>): string {
    if parts == [] then ""
    else
      var last := parts[|parts| - 1];
      JoinTextParts(parts[..|parts| - 1]) + (if last.isTextDict then last.content else "")
  }

  /**
   * The stripped text a message offers, or `None` when the scan passes over it: it is not
   * from the user, or its content is neither a string nor a list.
   */
  function MessageText(m: Message): (r: Option<string>)
    ensures r.Some? <==> m.role == Some("user") && !m.content.OtherContent?
    ensures r.Some? ==> Strip(r.value) == r.value
  {
    if m.role != Some("user") then None
    else
      match m.content
      case TextContent(t) => StripIdempotent(t); Some(Strip(t))
      case PartsContent(ps) => StripIdempotent(JoinTextParts(ps)); Some(Strip(JoinTextParts(ps)))
      case OtherContent => None
  }

  /** `text or None`. */
  function NonEmpty(t: string): (r: Option<string>)
    ensures r.Some? <==> t != ""
    ensures r.Some? ==> r.value == t
  {
    if t == "" then None else Some(t)
  }

  /**
   * The text of the most recent message the scan stops at. The scan stops at the first
   * message, from the end, that offers text, even when that text is empty.
   */
  function LatestUserText(msgs: seq<Message>): (r: Option<string>)
    ensures r.Some? ==> r.value != "" && Strip(r.value) == r.value
  {
    if msgs == [] then None
    else
      var offered := MessageText(msgs[|msgs| - 1]);
      if offered.Some? then NonEmpty(offered.value) else LatestUserText(msgs[..|msgs| - 1])
  }

  /** The scan answers with the message at `i` when every later message is passed over. */
  lemma {:induction false} LatestUserTextIsLastOffered(msgs: seq<Message>, i: nat)
    requires i < |msgs| && MessageText(msgs[i]).Some?
    requires forall j :: i < j < |msgs| ==> MessageText(msgs[j]).None?
    ensures LatestUserText(msgs) == NonEmpty(MessageText(msgs[i]).value)
  {
    if i < |msgs| - 1 {
      var init := msgs[..|msgs| - 1];
      assert forall j :: i < j < |init| ==> init[j] == msgs[j];
      LatestUserTextIsLastOffered(init, i);
    }
  }

  /** When no message offers text, there is no user text. */
  lemma {:induction false} LatestUserTextNone(msgs: seq<Message>)
    requires forall j :: 0 <= j < |msgs| ==> MessageText(msgs[j]).None?
    ensures LatestUserText(msgs) == None
  {
    if msgs != [] {
      var init := msgs[..|msgs| - 1];
      assert forall j :: 0 <= j < |init| ==> init[j] == msgs[j];
      LatestUserTextNone(init);
    }
  }

  /** `extract_user_text`: scans the messages from the last one backwards. */
  method ExtractUserText(msgs: seq<Message>) returns (text: Option<string>)
    ensures text == LatestUserText(msgs)
  {
    var i := |msgs|;
    assert msgs[..i] == msgs;
    while i > 0
      invariant 0 <= i <= |msgs|
      invariant LatestUserText(msgs) == LatestUserText(msgs[..i])
    {
      assert msgs[..i][..i - 1] == msgs[..i - 1];
      var offered := MessageText(msgs[i - 1]);
      if offered.Some? {
        text := NonEmpty(offered.value);
        return;
      }
      i := i - 1;
    }
    text := None;
  }

  /** `build_user_content`. */
  function BuildUserContent(text: string): (c: Content)
    ensures c.role == "user" && |c.parts| == 1
    ensures c.parts[0].text == Some(text) && c.parts[0].functionCall.None? && c.parts[0].functionResponse.None?
  {
    Content("user", [Part(Some(text), None, None)])
  }

  /** The function responses a message carries, in part order. */
  function ResponsesOf(parts: seq<Part>): seq<FunctionResponse> {
    if parts == [] then []
    else
      var last := parts[|parts| - 1];
      ResponsesOf(parts[..|parts| - 1]) + (if last.functionResponse.Some? then [last.functionResponse.value] else [])
  }

  /** `build_function_response_content`: one part per response, carrying nothing else. */
  function BuildFunctionResponseContent(responses: seq<FunctionResponse>): (c: Content)
    ensures c.role == "user" && |c.parts| == |responses|
    ensures forall i :: 0 <= i < |responses| ==> c.parts[i] == Part(None, None, Some(responses[i]))
  {
    Content("user", seq(|responses|, i requires 0 <= i < |responses| => Part(None, None, Some(responses[i]))))
  }

  /** The responses put in a message are read back from it unchanged and in order. */
  lemma {:induction false} BuildFunctionResponseContentRoundTrip(responses: seq<FunctionResponse>)
    ensures ResponsesOf(BuildFunctionResponseContent(responses).parts) == responses
  {
    if responses != [] {
      var init := responses[..|responses| - 1];
      BuildFunctionResponseContentRoundTrip(init);
      var c := BuildFunctionResponseContent(responses);
      assert c.parts[..|c.parts| - 1] == BuildFunctionResponseContent(init).parts;
    }
  }
}
