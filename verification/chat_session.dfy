/**
 * The client side of the approval flow (`useChatSession`): which tool calls still await a
 * decision, how tool-call parts are completed from the approval requests the stream
 * announced, how a decision is written into the messages, and the map of announced requests.
 */
module ChatSession {
  import opened Wrappers
  import opened Json
  import opened OrderedMap

  /** A tool-call part's `approval`: the request's id, whether it needs approval, and the decision once made. */
  datatype ApprovalMeta = ApprovalMeta(id: string, needsApproval: bool, approved: Option<bool>)

  /** A part of a UI message; text and other parts play no role here. */
  datatype UIPart =
    | ToolCallPart(id: string, name: string, arguments: string, state: string,
                   approval: Option<ApprovalMeta>, output: Option<Value>)
    | ToolResultPart(toolCallId: string)
    | OtherPart

  datatype UIMessage = UIMessage(id: string, role: string, parts: seq<UIPart>)

  /** A tool call awaiting the user's decision, as the approval panel shows it. */
  datatype ApprovalInfo = ApprovalInfo(id: string, toolCallId: string, toolName: string, input: Value, runId: Option<string>)

  /** `approvalRequests`: the announced requests by tool_call_id, in insertion order. */
  type Requests = Entries<string, ApprovalInfo>

  // ----- collectPendingApprovals -----

  /** The parts of all messages, message after message. */
  function AllParts(messages: seq<UIMessage>): seq<UIPart> {
    if messages == [] then []
    else AllParts(messages[..|messages| - 1]) + messages[|messages| - 1].parts
  }

  /** The tool_call_ids that have a tool-result part. */
  function ResultIds(parts: seq<UIPart>): set<string> {
    if parts == [] then {}
    else
      var p := parts[|parts| - 1];
      ResultIds(parts[..|parts| - 1]) + (if p.ToolResultPart? then {p.toolCallId} else {})
  }

  /** A tool call whose approval already carries a decision. */
  predicate Decided(p: UIPart) {
    p.ToolCallPart? && p.approval.Some? && p.approval.value.approved.Some?
  }

  predicate NeedsApproval(p: UIPart) {
    p.ToolCallPart? && (p.state == "approval-requested" || (p.approval.Some? && p.approval.value.needsApproval))
  }

  /** A tool-call part that is reported: it needs approval, is undecided and has no result. */
  predicate Awaits(p: UIPart, results: set<string>) {
    NeedsApproval(p) && !Decided(p) && p.id !in results
  }

  /** The tool_call_ids of tool-call parts that are decided or have a result. */
  function ResolvedIds(parts: seq<UIPart>, results: set<string>): set<string> {
    if parts == [] then {}
    else
      var p := parts[|parts| - 1];
      ResolvedIds(parts[..|parts| - 1], results)
      + (if p.ToolCallPart? && (Decided(p) || p.id in results) then {p.id} else {})
  }

  /** The report for an awaiting part: the id is the part's approval id, else the request's, else the tool_call_id. */
  function Info(p: UIPart, requests: Requests, parse: string -> Value): ApprovalInfo
    requires p.ToolCallPart?
  {
    var request := Get(requests, p.id);
    ApprovalInfo(
      if p.approval.Some? then p.approval.value.id else if request.Some? then request.value.id else p.id,
      p.id, p.name, parse(p.arguments),
      if request.Some? then request.value.runId else None)
  }

  /** The reports for the awaiting parts, in part order. */
  function Reports(parts: seq<UIPart>, results: set<string>, requests: Requests, parse: string -> Value): seq<ApprovalInfo> {
    if parts == [] then []
    else
      var p := parts[|parts| - 1];
      Reports(parts[..|parts| - 1], results, requests, parse)
      + (if Awaits(p, results) then [Info(p, requests, parse)] else [])
  }

  /** The tool_call_ids of the awaiting parts. */
  function ReportedIds(parts: seq<UIPart>, results: set<string>): set<string> {
    if parts == [] then {}
    else
      var p := parts[|parts| - 1];
      ReportedIds(parts[..|parts| - 1], results) + (if Awaits(p, results) then {p.id} else {})
  }

  /** The announced requests not already reported, resolved or answered by a result, in order. */
  function Leftovers(requests: seq<ApprovalInfo>, reported: set<string>, resolved: set<string>, results: set<string>): seq<ApprovalInfo> {
    if requests == [] then []
    else
      var a := requests[|requests| - 1];
      Leftovers(requests[..|requests| - 1], reported, resolved, results)
      + (if a.toolCallId !in reported && a.toolCallId !in resolved && a.toolCallId !in results then [a] else [])
  }

  /** What `collectPendingApprovals` returns. */
  function PendingApprovals(messages: seq<UIMessage>, requests: Requests, parse: string -> Value): seq<ApprovalInfo> {
    var parts := AllParts(messages);
    var results := ResultIds(parts);
    Reports(parts, results, requests, parse)
    + Leftovers(Values(requests), ReportedIds(parts, results), ResolvedIds(parts, results), results)
  }

  /** The first loop: the tool_call_ids that have a tool-result part, over all messages. */
  method ScanResults(messages: seq<UIMessage>) returns (resultIds: set<string>)
    ensures resultIds == ResultIds(AllParts(messages))
  {
    resultIds := {};
    for i := 0 to |messages|
      invariant resultIds == ResultIds(AllParts(messages[..i]))
    {
      assert messages[..i + 1][..i] == messages[..i];
      ghost var seen := AllParts(messages[..i]);
      var parts := messages[i].parts;
      assert seen + parts[..0] == seen;
      for j := 0 to |parts|
        invariant resultIds == ResultIds(seen + parts[..j])
      {
        assert (seen + parts[..j + 1])[..|seen| + j] == seen + parts[..j];
        if parts[j].ToolResultPart? {
          resultIds := resultIds + {parts[j].toolCallId};
        }
      }
      assert seen + parts[..|parts|] == AllParts(messages[..i + 1]);
    }
    assert messages[..|messages|] == messages;
  }

  /** The three folds of the second loop, one part further. */
  lemma ScanSnoc(xs: seq<UIPart>, p: UIPart, results: set<string>, requests: Requests, parse: string -> Value)
    ensures Reports(xs + [p], results, requests, parse)
         == Reports(xs, results, requests, parse) + (if Awaits(p, results) then [Info(p, requests, parse)] else [])
    ensures ReportedIds(xs + [p], results) == ReportedIds(xs, results) + (if Awaits(p, results) then {p.id} else {})
    ensures ResolvedIds(xs + [p], results)
         == ResolvedIds(xs, results) + (if p.ToolCallPart? && (Decided(p) || p.id in results) then {p.id} else {})
  {
    assert (xs + [p])[..|xs|] == xs;
  }

  /** The body of the second loop for one part. */
  method ScanPart(part: UIPart, requests: Requests, parse: string -> Value, resultIds: set<string>,
                  approvals: seq<ApprovalInfo>, pendingIds: set<string>, resolvedIds: set<string>)
    returns (approvals': seq<ApprovalInfo>, pendingIds': set<string>, resolvedIds': set<string>)
    ensures approvals' == approvals + (if Awaits(part, resultIds) then [Info(part, requests, parse)] else [])
    ensures pendingIds' == pendingIds + (if Awaits(part, resultIds) then {part.id} else {})
    ensures resolvedIds' == resolvedIds + (if part.ToolCallPart? && (Decided(part) || part.id in resultIds) then {part.id} else {})
  {
    approvals', pendingIds', resolvedIds' := approvals, pendingIds, resolvedIds;
    if !part.ToolCallPart? {
      return;
    }
    if part.approval.Some? && part.approval.value.approved.Some? {
      resolvedIds' := resolvedIds' + {part.id};
    }
    if part.id in resultIds {
      resolvedIds' := resolvedIds' + {part.id};
    }
    var needsApproval := part.state == "approval-requested" || (part.approval.Some? && part.approval.value.needsApproval);
    if !needsApproval || (part.approval.Some? && part.approval.value.approved.Some?) || part.id in resultIds {
      return;
    }
    var approvalRequest := Get(requests, part.id);
    approvals' := approvals' + [ApprovalInfo(
      if part.approval.Some? then part.approval.value.id
      else if approvalRequest.Some? then approvalRequest.value.id else part.id,
      part.id, part.name, parse(part.arguments),
      if approvalRequest.Some? then approvalRequest.value.runId else None)];
    pendingIds' := pendingIds' + {part.id};
  }

  /** The inner loop of the second loop: the parts of one message, after the parts `seen` before it. */
  method ScanParts(ghost seen: seq<UIPart>, parts: seq<UIPart>, requests: Requests, parse: string -> Value,
                   resultIds: set<string>, approvals: seq<ApprovalInfo>, pendingIds: set<string>, resolvedIds: set<string>)
    returns (approvals': seq<ApprovalInfo>, pendingIds': set<string>, resolvedIds': set<string>)
    requires approvals == Reports(seen, resultIds, requests, parse)
    requires pendingIds == ReportedIds(seen, resultIds)
    requires resolvedIds == ResolvedIds(seen, resultIds)
    ensures approvals' == Reports(seen + parts, resultIds, requests, parse)
    ensures pendingIds' == ReportedIds(seen + parts, resultIds)
    ensures resolvedIds' == ResolvedIds(seen + parts, resultIds)
  {
    approvals', pendingIds', resolvedIds' := approvals, pendingIds, resolvedIds;
    ghost var xs := seen;
    assert seen + parts[..0] == seen;
    for j := 0 to |parts|
      invariant xs == seen + parts[..j]
      invariant approvals' == Reports(xs, resultIds, requests, parse)
      invariant pendingIds' == ReportedIds(xs, resultIds)
      invariant resolvedIds' == ResolvedIds(xs, resultIds)
    {
      ScanSnoc(xs, parts[j], resultIds, requests, parse);
      approvals', pendingIds', resolvedIds' := ScanPart(parts[j], requests, parse, resultIds, approvals', pendingIds', resolvedIds');
      xs := xs + [parts[j]];
      assert parts[..j + 1] == parts[..j] + [parts[j]];
    }
    assert parts[..|parts|] == parts;
  }

  /** The second loop: the resolved ids, the reports and the reported ids, part by part. */
  method ScanToolCalls(messages: seq<UIMessage>, requests: Requests, parse: string -> Value, resultIds: set<string>)
    returns (approvals: seq<ApprovalInfo>, pendingIds: set<string>, resolvedIds: set<string>)
    ensures approvals == Reports(AllParts(messages), resultIds, requests, parse)
    ensures pendingIds == ReportedIds(AllParts(messages), resultIds)
    ensures resolvedIds == ResolvedIds(AllParts(messages), resultIds)
  {
    approvals, pendingIds, resolvedIds := [], {}, {};
    for i := 0 to |messages|
      invariant approvals == Reports(AllParts(messages[..i]), resultIds, requests, parse)
      invariant pendingIds == ReportedIds(AllParts(messages[..i]), resultIds)
      invariant resolvedIds == ResolvedIds(AllParts(messages[..i]), resultIds)
    {
      assert messages[..i + 1][..i] == messages[..i];
      assert AllParts(messages[..i + 1]) == AllParts(messages[..i]) + messages[i].parts;
      approvals, pendingIds, resolvedIds :=
        ScanParts(AllParts(messages[..i]), messages[i].parts, requests, parse, resultIds, approvals, pendingIds, resolvedIds);
    }
    assert messages[..|messages|] == messages;
  }

  /**
   * `collectPendingApprovals`: the awaiting tool-call parts in message and part order, then
   * the announced requests that no part reported and nothing resolved, in insertion order.
   * `parse` stands for `parseToolArguments`.
   */
  method CollectPendingApprovals(messages: seq<UIMessage>, requests: Requests, parse: string -> Value)
    returns (approvals: seq<ApprovalInfo>)
    ensures approvals == PendingApprovals(messages, requests, parse)
  {
    var resultIds := ScanResults(messages);
    var pendingIds, resolvedIds;
    approvals, pendingIds, resolvedIds := ScanToolCalls(messages, requests, parse, resultIds);
    ghost var reports := approvals;
    var values := Values(requests);
    for k := 0 to |values|
      invariant approvals == reports + Leftovers(values[..k], pendingIds, resolvedIds, resultIds)
    {
      assert values[..k + 1][..k] == values[..k];
      var approval := values[k];
      if approval.toolCallId !in pendingIds && approval.toolCallId !in resolvedIds && approval.toolCallId !in resultIds {
        approvals := approvals + [approval];
      }
    }
    assert values[..|values|] == values;
  }

  /** Exactly the awaiting parts are reported, each with its report. */
  lemma {:induction false} ReportsAreTheAwaitingParts(parts: seq<UIPart>, results: set<string>, requests: Requests, parse: string -> Value)
    ensures forall a :: a in Reports(parts, results, requests, parse) <==>
      exists k :: 0 <= k < |parts| && Awaits(parts[k], results) && a == Info(parts[k], requests, parse)
    ensures forall id :: id in ReportedIds(parts, results) <==>
      exists k :: 0 <= k < |parts| && Awaits(parts[k], results) && parts[k].id == id
  {
    if parts != [] {
      var init := parts[..|parts| - 1];
      ReportsAreTheAwaitingParts(init, results, requests, parse);
      assert forall k :: 0 <= k < |init| ==> init[k] == parts[k];
    }
  }

  /** A tool call whose id has a tool-result part, or whose every part is decided, is never reported. */
  lemma {:induction false} ResolvedAreNeverReported(parts: seq<UIPart>, results: set<string>, requests: Requests, parse: string -> Value)
    ensures forall a :: a in Reports(parts, results, requests, parse) ==> a.toolCallId !in results
    ensures forall id :: id in ReportedIds(parts, results) ==> id !in results
  {
    if parts != [] {
      ResolvedAreNeverReported(parts[..|parts| - 1], results, requests, parse);
    }
  }

  /** An announced request is kept exactly when no part reported it and nothing resolved it. */
  lemma {:induction false} LeftoversAreUnclaimed(requests: seq<ApprovalInfo>, reported: set<string>, resolved: set<string>, results: set<string>)
    ensures forall a :: a in Leftovers(requests, reported, resolved, results) <==>
      a in requests && a.toolCallId !in reported && a.toolCallId !in resolved && a.toolCallId !in results
  {
    if requests != [] {
      var init := requests[..|requests| - 1];
      LeftoversAreUnclaimed(init, reported, resolved, results);
      assert requests == init + [requests[|requests| - 1]];
    }
  }

  /**
   * Nothing `collectPendingApprovals` returns has a tool-result part anywhere in the
   * messages, and an announced request it returns was not reported from a part and belongs to
   * no decided tool call.
   */
  lemma PendingApprovalsAreUnresolved(messages: seq<UIMessage>, requests: Requests, parse: string -> Value)
    ensures var parts := AllParts(messages);
      var results := ResultIds(parts);
      forall a :: a in PendingApprovals(messages, requests, parse) ==>
        && a.toolCallId !in results
        && (a !in Reports(parts, results, requests, parse) ==>
              a.toolCallId !in ReportedIds(parts, results) && a.toolCallId !in ResolvedIds(parts, results))
  {
    var parts := AllParts(messages);
    var results := ResultIds(parts);
    ResolvedAreNeverReported(parts, results, requests, parse);
    LeftoversAreUnclaimed(Values(requests), ReportedIds(parts, results), ResolvedIds(parts, results), results);
  }

  // ----- normalizeToolCallParts -----

  /**
   * One part: a tool call without approval that has an announced request gains the request's
   * approval and the "approval-requested" state; a tool call still without approval and
   * without output whose id has a result in the same message gets `output: true`.
   */
  function NormalizePart(p: UIPart, requests: Requests, results: set<string>): UIPart {
    if !p.ToolCallPart? then p
    else
      var request := Get(requests, p.id);
      var p1 :=
        if p.approval.None? && request.Some?
        then p.(approval := Some(ApprovalMeta(request.value.id, true, None)), state := "approval-requested")
        else p;
      if p1.approval.None? && p1.output.None? && p.id in results then p1.(output := Some(Bool(true))) else p1
  }

  function NormalizeParts(parts: seq<UIPart>, requests: Requests, results: set<string>): (r: seq<UIPart>)
    ensures |r| == |parts|
    ensures forall i :: 0 <= i < |parts| ==> r[i] == NormalizePart(parts[i], requests, results)
  {
    seq(|parts|, i requires 0 <= i < |parts| => NormalizePart(parts[i], requests, results))
  }

  /** One message, and whether any of its parts was rewritten. */
  function NormalizeMessage(m: UIMessage, requests: Requests): (UIMessage, bool) {
    if m.role != "assistant" then (m, false)
    else
      var next := NormalizeParts(m.parts, requests, ResultIds(m.parts));
      if next == m.parts then (m, false) else (m.(parts := next), true)
  }

  /**
   * `normalizeToolCallParts`: every message normalized; `changed` tells whether any was, and
   * when it is false the messages come back as they were.
   */
  method NormalizeToolCallParts(messages: seq<UIMessage>, requests: Requests) returns (next: seq<UIMessage>, changed: bool)
    ensures |next| == |messages|
    ensures forall i :: 0 <= i < |messages| ==> next[i] == NormalizeMessage(messages[i], requests).0
    ensures changed <==> exists i :: 0 <= i < |messages| && NormalizeMessage(messages[i], requests).1
    ensures !changed ==> next == messages
  {
    next := [];
    changed := false;
    for i := 0 to |messages|
      invariant |next| == i
      invariant forall k :: 0 <= k < i ==> next[k] == NormalizeMessage(messages[k], requests).0
      invariant changed <==> exists k :: 0 <= k < i && NormalizeMessage(messages[k], requests).1
      invariant !changed ==> next == messages[..i]
    {
      var r := NormalizeMessage(messages[i], requests);
      if r.1 {
        changed := true;
      }
      next := next + [r.0];
    }
  }

  /** Parts that agree on which are tool results, and on their ids, have the same result ids. */
  lemma {:induction false} SameResultIds(xs: seq<UIPart>, ys: seq<UIPart>)
    requires |xs| == |ys|
    requires forall i :: 0 <= i < |xs| ==> (xs[i].ToolResultPart? <==> ys[i].ToolResultPart?)
    requires forall i :: 0 <= i < |xs| && xs[i].ToolResultPart? ==> xs[i].toolCallId == ys[i].toolCallId
    ensures ResultIds(xs) == ResultIds(ys)
  {
    if xs != [] {
      SameResultIds(xs[..|xs| - 1], ys[..|ys| - 1]);
    }
  }

  /** Normalizing a part a second time changes nothing. */
  lemma NormalizePartIdempotent(p: UIPart, requests: Requests, results: set<string>)
    ensures NormalizePart(NormalizePart(p, requests, results), requests, results) == NormalizePart(p, requests, results)
  {
  }

  /** Normalizing twice is normalizing once: the second pass reports no change. */
  lemma NormalizeIdempotent(m: UIMessage, requests: Requests)
    ensures var once := NormalizeMessage(m, requests).0;
      NormalizeMessage(once, requests) == (once, false)
  {
    if m.role == "assistant" {
      var results := ResultIds(m.parts);
      var next := NormalizeParts(m.parts, requests, results);
      SameResultIds(m.parts, next);
      forall i | 0 <= i < |next|
        ensures NormalizePart(next[i], requests, results) == next[i]
      {
        NormalizePartIdempotent(m.parts[i], requests, results);
      }
      assert NormalizeParts(next, requests, ResultIds(next)) == next;
    }
  }

  /**
   * What normalizing does to one tool-call part: an announced request becomes its approval
   * with the "approval-requested" state; otherwise a result in the same message marks it done
   * with `output: true`; nothing else is touched, and any other part stays as it is.
   */
  lemma NormalizePartEffect(p: UIPart, requests: Requests, results: set<string>)
    ensures !p.ToolCallPart? ==> NormalizePart(p, requests, results) == p
    ensures p.ToolCallPart? && p.approval.None? && Get(requests, p.id).Some? ==>
      NormalizePart(p, requests, results)
        == p.(approval := Some(ApprovalMeta(Get(requests, p.id).value.id, true, None)), state := "approval-requested")
    ensures p.ToolCallPart? && p.approval.None? && Get(requests, p.id).None? && p.output.None? && p.id in results ==>
      NormalizePart(p, requests, results) == p.(output := Some(Bool(true)))
    ensures p.ToolCallPart? && p.approval.Some? ==> NormalizePart(p, requests, results) == p
    ensures p.ToolCallPart? ==> NormalizePart(p, requests, results).id == p.id
  {
  }

  /** A message that is not the assistant's is never rewritten. */
  lemma OnlyAssistantMessagesChange(m: UIMessage, requests: Requests)
    ensures m.role != "assistant" ==> NormalizeMessage(m, requests) == (m, false)
    ensures NormalizeMessage(m, requests).1 <==> NormalizeMessage(m, requests).0 != m
  {
  }

  // ----- applyApprovalResponse -----

  /** A tool-call part whose approval has this id. */
  predicate Answers(p: UIPart, approvalId: string) {
    p.ToolCallPart? && p.approval.Some? && p.approval.value.id == approvalId
  }

  /** `parts.find(...)`: the first part answering the approval id. */
  function FirstAnswering(parts: seq<UIPart>, approvalId: string): (r: Option<nat>)
    ensures r.Some? ==> r.value < |parts| && Answers(parts[r.value], approvalId)
    ensures r.Some? ==> forall k :: 0 <= k < r.value ==> !Answers(parts[k], approvalId)
    ensures r.None? ==> forall k :: 0 <= k < |parts| ==> !Answers(parts[k], approvalId)
  {
    if parts == [] then None
    else if Answers(parts[0], approvalId) then Some(0)
    else
      var r := FirstAnswering(parts[1..], approvalId);
      if r.None? then None else Some(r.value + 1)
  }

  /** The decision written into a part: `approval.approved` set and the state "approval-responded". */
  function Responded(p: UIPart, approved: bool): UIPart
    requires p.ToolCallPart? && p.approval.Some?
  {
    p.(approval := Some(p.approval.value.(approved := Some(approved))), state := "approval-responded")
  }

  /** One message after the decision: its first answering part responded, nothing else changed. */
  function RespondMessage(m: UIMessage, approvalId: string, approved: bool): (r: UIMessage)
    ensures r.id == m.id && r.role == m.role && |r.parts| == |m.parts|
    ensures forall k :: 0 <= k < |m.parts| && FirstAnswering(m.parts, approvalId) != Some(k) ==> r.parts[k] == m.parts[k]
  {
    var found := FirstAnswering(m.parts, approvalId);
    if found.None? then m
    else m.(parts := m.parts[found.value := Responded(m.parts[found.value], approved)])
  }

  /** `applyApprovalResponse`: in every message, the first part answering the approval id takes the decision. */
  method ApplyApprovalResponse(messages: seq<UIMessage>, approvalId: string, approved: bool) returns (next: seq<UIMessage>)
    ensures |next| == |messages|
    ensures forall i :: 0 <= i < |messages| ==> next[i] == RespondMessage(messages[i], approvalId, approved)
  {
    next := [];
    for i := 0 to |messages|
      invariant |next| == i
      invariant forall k :: 0 <= k < i ==> next[k] == RespondMessage(messages[k], approvalId, approved)
    {
      var parts := messages[i].parts;
      var k := 0;
      while k < |parts| && !Answers(parts[k], approvalId)
        invariant 0 <= k <= |parts|
        invariant forall j :: 0 <= j < k ==> !Answers(parts[j], approvalId)
      {
        k := k + 1;
      }
      if k < |parts| {
        parts := parts[k := Responded(parts[k], approved)];
      }
      next := next + [messages[i].(parts := parts)];
    }
  }

  /**
   * After the decision, the answered part carries it and is decided, so it no longer awaits
   * approval; a message with no answering part is unchanged.
   */
  lemma RespondedPartIsDecided(m: UIMessage, approvalId: string, approved: bool, results: set<string>)
    ensures var found := FirstAnswering(m.parts, approvalId);
      var r := RespondMessage(m, approvalId, approved);
      && (found.None? ==> r == m)
      && (found.Some? ==>
            && Decided(r.parts[found.value]) && !Awaits(r.parts[found.value], results)
            && r.parts[found.value].approval.value.approved == Some(approved)
            && r.parts[found.value].state == "approval-responded"
            && r.parts[found.value].id == m.parts[found.value].id)
  {
  }

  // ----- The approval-request map -----

  /** The fields of an approval-requested chunk the client reads. */
  datatype ApprovalRequestedChunk = ApprovalRequestedChunk(id: string, toolCallId: string, toolName: string,
                                                           input: Value, approvalId: Option<string>)

  /** `handleChunk` on an approval-requested chunk: the request recorded under its tool_call_id. */
  function RecordApprovalRequest(requests: Requests, c: ApprovalRequestedChunk): (r: Requests)
    ensures Get(r, c.toolCallId) == Some(ApprovalInfo(c.approvalId.GetOr(c.toolCallId), c.toolCallId, c.toolName, c.input, Some(c.id)))
    ensures forall k :: k != c.toolCallId ==> Get(r, k) == Get(requests, k)
    ensures DistinctKeys(requests) ==> DistinctKeys(r)
  {
    var info := ApprovalInfo(c.approvalId.GetOr(c.toolCallId), c.toolCallId, c.toolName, c.input, Some(c.id));
    PutOthers(requests, c.toolCallId, info);
    if DistinctKeys(requests) then
      PutDistinct(requests, c.toolCallId, info);
      Put(requests, c.toolCallId, info)
    else Put(requests, c.toolCallId, info)
  }

  /** `clearApprovalRequest`: the request under the tool_call_id dropped; an absent key returns the map as it was. */
  function ClearApprovalRequest(requests: Requests, toolCallId: string): (r: Requests)
    ensures Get(requests, toolCallId).None? ==> r == requests
    ensures Get(r, toolCallId).None?
    ensures forall k :: k != toolCallId ==> Get(r, k) == Get(requests, k)
    ensures DistinctKeys(requests) ==> DistinctKeys(r)
  {
    RemoveOthers(requests, toolCallId);
    if Get(requests, toolCallId).None? then requests
    else if DistinctKeys(requests) then
      RemoveDistinct(requests, toolCallId);
      Remove(requests, toolCallId)
    else Remove(requests, toolCallId)
  }

  /** Clearing a request that was just recorded for a new tool_call_id restores the map, order included. */
  lemma RecordThenClear(requests: Requests, c: ApprovalRequestedChunk)
    requires Get(requests, c.toolCallId).None?
    ensures ClearApprovalRequest(RecordApprovalRequest(requests, c), c.toolCallId) == requests
  {
    var info := ApprovalInfo(c.approvalId.GetOr(c.toolCallId), c.toolCallId, c.toolName, c.input, Some(c.id));
    PutThenRemove(requests, c.toolCallId, info);
  }
}
