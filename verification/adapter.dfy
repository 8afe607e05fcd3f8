/**
 * `TanStackAdkAdapter`: the per-request object that runs the engine and translates its
 * events. Its text accumulator and tool-call counter are fields updated in place; the run
 * store and the engine are objects it shares. Every method is proved to leave the adapter, the
 * store and the engine as the corresponding function of `Translation` or `ResumePlan` says,
 * and to return the chunks that function emits.
 */
module Adapter {
  import opened Wrappers
  import opened Json
  import opened Models
  import opened RunStore
  import opened OrderedMap
  import opened Adk
  import opened TanstackStream
  import opened TanstackToAdk
  import opened Translation
  import opened ResumePlan
  import opened Continuation

  class TanStackAdkAdapter {
    const runId: string
    const model: string
    const userId: string
    const runner: Runner
    const runStore: InMemoryRunStore
    /** `json.dumps`. */
    const dumps: Value -> string
    /** The hex digits of the uuid drawn for a call without an id, by the counter's value at the draw. */
    const uuidHex: nat -> string
    var textAccumulator: string
    var toolCallIndex: nat

    constructor (runId: string, model: string, runner: Runner, runStore: InMemoryRunStore, userId: string,
                 dumps: Value -> string, uuidHex: nat -> string)
      ensures this.runId == runId && this.model == model && this.runner == runner && this.runStore == runStore
      ensures this.userId == userId && this.dumps == dumps && this.uuidHex == uuidHex
      ensures textAccumulator == "" && toolCallIndex == 0
    {
      this.runId := runId;
      this.model := model;
      this.runner := runner;
      this.runStore := runStore;
      this.userId := userId;
      this.dumps := dumps;
      this.uuidHex := uuidHex;
      textAccumulator := "";
      toolCallIndex := 0;
    }

    /** What the steps are given, with `now` as the time of this call. */
    function CtxAt(now: int): Ctx {
      Ctx(runId, model, userId, now, dumps, uuidHex, runner.respond)
    }

    /** The state the steps change. */
    function Snapshot(): State
      reads this, runStore, runner
    {
      State(textAccumulator, toolCallIndex, runStore.runs, runner.history)
    }

    /** `_next_tool_call_index`: the counter's value, after which the counter moves on. */
    method NextToolCallIndex() returns (value: nat)
      modifies this
      ensures value == old(toolCallIndex) && toolCallIndex == value + 1
      ensures textAccumulator == old(textAccumulator)
    {
      value := toolCallIndex;
      toolCallIndex := toolCallIndex + 1;
    }

    /** `_handle_confirmation_call`. */
    method HandleConfirmationCall(ev: Event, call: FunctionCall, now: int) returns (chunks: seq<StreamChunk>)
      modifies runStore
      ensures Out(Snapshot(), chunks) == ConfirmationStep(CtxAt(now), old(Snapshot()), ev, call)
    {
      var args := if call.args.Some? then call.args.value else map[];
      var original := GetField(args, "originalFunctionCall");
      var originalCall := if original.Obj? then original.fields else map[];
      var toolCallId := GetField(originalCall, "id");
      var toolName := GetField(originalCall, "name");
      var toolInput := GetField(originalCall, "args");
      if !(toolCallId.Str? && toolCallId.s != "") || !(toolName.Str? && toolName.s != "") {
        return [];
      }
      runStore.AddPendingApproval(runId, PendingAction(Approval, toolCallId.s, toolName.s, toolInput, ev.invocationId, call.id));
      chunks := [ApprovalRequestedChunk(runId, model, now, toolCallId.s, toolName.s, toolInput, ApprovalObj(toolCallId.s))];
    }

    /** `_handle_function_call`. */
    method HandleFunctionCall(ev: Event, call: FunctionCall, now: int) returns (chunks: seq<StreamChunk>)
      modifies this, runStore
      ensures Out(Snapshot(), chunks) == CallStep(CtxAt(now), old(Snapshot()), ev, call)
    {
      if call.name == Some(RequestConfirmationName) {
        chunks := HandleConfirmationCall(ev, call, now);
        return;
      }
      var toolCallId := if call.id.Some? && call.id.value != "" then call.id.value else "tool_" + uuidHex(toolCallIndex);
      var toolInput := if call.args.Some? then call.args.value else map[];
      if call.name.Some? && call.name.value in ClientToolNames {
        runStore.AddPendingClientTool(runId, NewPendingAction(ClientTool, toolCallId, NameOr(call.name, "unknown"),
                                                              Obj(toolInput), ev.invocationId));
      }
      var arguments := dumps(Obj(toolInput));
      var index := NextToolCallIndex();
      chunks := [ToolCallChunk(runId, model, now, index, ToolCall(toolCallId, ToolCallFunction(NameOr(call.name, ""), arguments)))];
    }

    /** `_handle_function_response`: reads nothing but the response and the event. */
    method HandleFunctionResponse(ev: Event, resp: FunctionResponse, now: int) returns (chunks: seq<StreamChunk>)
      ensures chunks == ResponseChunks(CtxAt(now), ev, resp)
      ensures |chunks| <= 1
      ensures chunks != [] <==> ShowsResponse(ev, resp)
    {
      if resp.name == Some(RequestConfirmationName) {
        return [];
      }
      if resp.id.Some? && resp.id.value in ev.requestedConfirmations {
        return [];
      }
      var content := ExtractToolResultContent(dumps, resp.response);
      if content.None? {
        return [];
      }
      chunks := [ToolResultChunk(runId, model, now, NameOr(resp.id, ""), content.value)];
    }

    /** The text of one part: the accumulator takes in the delta, and one content chunk reports both. */
    method HandleText(text: string, partial: bool, now: int) returns (chunks: seq<StreamChunk>)
      modifies this
      ensures Out(Snapshot(), chunks) == TextStep(CtxAt(now), old(Snapshot()), text, partial)
    {
      var delta := text;
      if !partial {
        if textAccumulator <= delta {
          delta := delta[|textAccumulator|..];
          textAccumulator := textAccumulator + delta;
        } else {
          textAccumulator := textAccumulator + delta;
        }
      } else {
        textAccumulator := textAccumulator + delta;
      }
      chunks := [ContentChunk(runId, model, now, textAccumulator, delta, Some(Assistant))];
    }

    /** One part of an event: its text, then its function call, then its function response. */
    method HandlePart(ev: Event, part: Part, now: int) returns (chunks: seq<StreamChunk>)
      modifies this, runStore
      ensures Out(Snapshot(), chunks) == PartStep(CtxAt(now), old(Snapshot()), ev, part)
    {
      var fromText: seq<StreamChunk> := [];
      if part.text.Some? && part.text.value != "" {
        fromText := HandleText(part.text.value, ev.partial, now);
      }
      var fromCall: seq<StreamChunk> := [];
      if part.functionCall.Some? {
        fromCall := HandleFunctionCall(ev, part.functionCall.value, now);
      }
      var fromResponse: seq<StreamChunk> := [];
      if part.functionResponse.Some? {
        fromResponse := HandleFunctionResponse(ev, part.functionResponse.value, now);
      }
      chunks := fromText + fromCall + fromResponse;
    }

    /** `_event_to_chunks`. */
    method EventToChunks(ev: Event, now: int) returns (chunks: seq<StreamChunk>)
      modifies this, runStore
      ensures Out(Snapshot(), chunks) == EventStep(CtxAt(now), old(Snapshot()), ev)
    {
      if ev.invocationId.Some? && ev.invocationId.value != "" {
        runStore.SetInvocationId(runId, ev.invocationId.value);
      }
      ghost var start := Snapshot();
      var parts := if ev.content.Some? then ev.content.value.parts else [];
      chunks := [];
      var i := 0;
      while i < |parts|
        invariant 0 <= i <= |parts|
        invariant Out(Snapshot(), chunks) == PartsStep(CtxAt(now), start, ev, parts[..i])
      {
        assert parts[..i + 1][..i] == parts[..i];
        var fromPart := HandlePart(ev, parts[i], now);
        chunks := chunks + fromPart;
        i := i + 1;
      }
      assert parts[..i] == parts;
    }

    /** `_run_with_content`: the engine's events, translated, and an error chunk if it raised. */
    method RunWithContent(invocationId: Option<string>, message: Content, now: int) returns (chunks: seq<StreamChunk>)
      modifies this, runStore, runner
      ensures Out(Snapshot(), chunks) == RunContent(CtxAt(now), old(Snapshot()), invocationId, message)
    {
      var run := runner.RunAsync(InvocationOf(CtxAt(now), invocationId, message));
      ghost var start := Snapshot();
      chunks := [];
      var i := 0;
      while i < |run.events|
        invariant 0 <= i <= |run.events|
        invariant Out(Snapshot(), chunks) == EventsStep(CtxAt(now), start, run.events[..i])
      {
        assert run.events[..i + 1][..i] == run.events[..i];
        var fromEvent := EventToChunks(run.events[i], now);
        chunks := chunks + fromEvent;
        i := i + 1;
      }
      assert run.events[..i] == run.events;
      if run.failure.Some? {
        chunks := chunks + [ErrorChunk(runId, model, now, ErrorObj(run.failure.value))];
      }
    }

    /** `run_from_user_text`. */
    method RunFromUserText(text: string, now: int) returns (chunks: seq<StreamChunk>)
      modifies this, runStore, runner
      ensures Out(Snapshot(), chunks) == Translation.RunFromUserText(CtxAt(now), old(Snapshot()), text)
    {
      var _ := runStore.GetOrCreate(runId);
      chunks := RunWithContent(None, BuildUserContent(text), now);
    }

    /** One `approvals` item: its pop from the store, the response it logs and the chunk it dispatches, if any. */
    method DecideApproval(ghost p: Plan, toolCallId: string, approved: Value, now: int)
      returns (entry: seq<(Option<string>, FunctionResponse)>, dispatched: seq<StreamChunk>)
      requires p.runs == runStore.runs
      modifies runStore
      ensures ApprovalStep(CtxAt(now), p, toolCallId, approved)
              == Plan(runStore.runs, p.approvalLog + entry, p.toolLog, p.dispatched + dispatched)
    {
      entry, dispatched := [], [];
      var pending := runStore.PopPendingApproval(runId, toolCallId);
      if pending.None? {
        return;
      }
      var a := pending.value;
      if a.adkConfirmationCallId.None? || a.adkConfirmationCallId.value == "" {
        return;
      }
      entry := [(a.invocationId, ConfirmationResponse(a.adkConfirmationCallId.value, approved))];
      if a.toolName in ClientToolNames {
        if Truthy(approved) {
          dispatched := [Dispatch(CtxAt(now), a)];
        } else {
          var _ := runStore.PopPendingClientTool(runId, a.toolCallId);
        }
      }
    }

    /** One `tool_results` item: its pop from the store and the response it logs, if any. */
    method AcceptToolResult(ghost p: Plan, toolCallId: string, result: Value, now: int)
      returns (entry: seq<(Option<string>, FunctionResponse)>)
      requires p.runs == runStore.runs
      modifies runStore
      ensures ToolResultStep(CtxAt(now), p, toolCallId, result) == p.(runs := runStore.runs, toolLog := p.toolLog + entry)
    {
      entry := [];
      var pending := runStore.PopPendingClientTool(runId, toolCallId);
      if pending.Some? {
        entry := [(pending.value.invocationId, ToolResultResponse(toolCallId, pending.value.toolName, result))];
      }
    }

    /** The `approvals` loop: the responses grouped by invocation, the chunks to dispatch, and the store after the pops. */
    method DecideApprovals(ghost p0: Plan, approvals: seq<(string, Value)>, now: int)
      returns (groups: Entries<Option<string>, seq<FunctionResponse>>, dispatched: seq<StreamChunk>, ghost p: Plan)
      requires p0 == Plan(runStore.runs, [], [], [])
      modifies runStore
      ensures p == ApprovalsPlan(CtxAt(now), p0, approvals)
      ensures p.runs == runStore.runs && p.toolLog == [] && p.dispatched == dispatched
      ensures groups == GroupBy(p.approvalLog)
    {
      p := p0;
      groups, dispatched := [], [];
      var i := 0;
      while i < |approvals|
        invariant 0 <= i <= |approvals|
        invariant p == ApprovalsPlan(CtxAt(now), p0, approvals[..i])
        invariant p.runs == runStore.runs && p.toolLog == [] && p.dispatched == dispatched
        invariant groups == GroupBy(p.approvalLog)
      {
        assert approvals[..i + 1][..i] == approvals[..i];
        var (toolCallId, approved) := approvals[i];
        var entry, fromApproval := DecideApproval(p, toolCallId, approved, now);
        if entry != [] {
          assert (p.approvalLog + entry)[..|p.approvalLog|] == p.approvalLog;
          groups := AppendTo(groups, entry[0].0, entry[0].1);
        } else {
          assert p.approvalLog + entry == p.approvalLog;
        }
        dispatched := dispatched + fromApproval;
        p := Plan(runStore.runs, p.approvalLog + entry, [], dispatched);
        i := i + 1;
      }
      assert approvals[..i] == approvals;
    }

    /** The `tool_results` loop: the responses grouped by invocation, and the store after the pops. */
    method AcceptToolResults(ghost p0: Plan, toolResults: seq<(string, Value)>, now: int)
      returns (groups: Entries<Option<string>, seq<FunctionResponse>>, ghost p: Plan)
      requires p0.runs == runStore.runs && p0.toolLog == []
      modifies runStore
      ensures p == ToolResultsPlan(CtxAt(now), p0, toolResults)
      ensures p.runs == runStore.runs && p.approvalLog == p0.approvalLog && p.dispatched == p0.dispatched
      ensures groups == GroupBy(p.toolLog)
    {
      p := p0;
      groups := [];
      var j := 0;
      while j < |toolResults|
        invariant 0 <= j <= |toolResults|
        invariant p == ToolResultsPlan(CtxAt(now), p0, toolResults[..j])
        invariant p.runs == runStore.runs && p.approvalLog == p0.approvalLog && p.dispatched == p0.dispatched
        invariant groups == GroupBy(p.toolLog)
      {
        assert toolResults[..j + 1][..j] == toolResults[..j];
        var (toolCallId, result) := toolResults[j];
        var entry := AcceptToolResult(p, toolCallId, result, now);
        if entry != [] {
          assert (p.toolLog + entry)[..|p.toolLog|] == p.toolLog;
          groups := AppendTo(groups, entry[0].0, entry[0].1);
        } else {
          assert p.toolLog + entry == p.toolLog;
        }
        p := p.(runs := runStore.runs, toolLog := p.toolLog + entry);
        j := j + 1;
      }
      assert toolResults[..j] == toolResults;
    }

    /**
     * The engine runs of `resume_from_continuation`: one per group, the approval groups and then
     * the tool-result groups, each carrying its responses.
     */
    method RunGroups(approvalGroups: seq<(Option<string>, seq<FunctionResponse>)>,
                     toolGroups: seq<(Option<string>, seq<FunctionResponse>)>, now: int)
      returns (chunks: seq<StreamChunk>)
      modifies this, runStore, runner
      ensures Out(Snapshot(), chunks) == Drive(CtxAt(now), old(Snapshot()), approvalGroups + toolGroups)
    {
      ghost var start := Snapshot();
      ghost var groups := approvalGroups + toolGroups;
      chunks := [];
      var k := 0;
      while k < |approvalGroups|
        invariant 0 <= k <= |approvalGroups|
        invariant Out(Snapshot(), chunks) == Drive(CtxAt(now), start, groups[..k])
      {
        DriveStep(CtxAt(now), start, groups, k);
        assert groups[k] == approvalGroups[k];
        var fromRun := RunWithContent(approvalGroups[k].0, BuildFunctionResponseContent(approvalGroups[k].1), now);
        chunks := chunks + fromRun;
        k := k + 1;
      }
      var m := 0;
      while m < |toolGroups|
        invariant 0 <= m <= |toolGroups|
        invariant Out(Snapshot(), chunks) == Drive(CtxAt(now), start, groups[..|approvalGroups| + m])
      {
        DriveStep(CtxAt(now), start, groups, |approvalGroups| + m);
        assert groups[|approvalGroups| + m] == toolGroups[m];
        var fromRun := RunWithContent(toolGroups[m].0, BuildFunctionResponseContent(toolGroups[m].1), now);
        chunks := chunks + fromRun;
        m := m + 1;
      }
      assert groups[..|approvalGroups| + m] == groups;
    }

    /**
     * `resume_from_continuation`: decide the approvals and the tool results in order, grouping
     * the responses by invocation; emit the dispatched client-tool chunks; then run the engine
     * once per group, approval groups first.
     */
    method ResumeFromContinuation(payload: Payload, now: int) returns (chunks: seq<StreamChunk>)
      modifies this, runStore, runner
      ensures Out(Snapshot(), chunks) == Resume(CtxAt(now), old(Snapshot()), payload)
    {
      ghost var st0 := Snapshot();
      var _ := runStore.GetOrCreate(runId);
      var approvalGroups, clientToolChunks, p1 := DecideApprovals(Plan(runStore.runs, [], [], []), payload.approvals, now);
      var toolGroups, p := AcceptToolResults(p1, payload.toolResults, now);
      assert p == PlanFor(CtxAt(now), st0.runs, payload);
      assert Snapshot() == st0.(runs := p.runs);
      var fromRuns := RunGroups(approvalGroups, toolGroups, now);
      chunks := clientToolChunks + fromRuns;
    }

    /** `has_pending`. */
    method HasPending() returns (pending: bool)
      ensures pending == Pending(runStore.runs, runId)
    {
      pending := runStore.HasPending(runId);
    }
  }
}
