/**
 * What the adapter does with engine events, as functions of the state it reads and writes:
 * its text accumulator and tool-call counter, the run store's table and the engine's
 * history. The class `Adapter.TanStackAdkAdapter` performs these steps in place and is proved
 * to agree with them.
 */
module Translation {
  import opened Wrappers
  import opened Json
  import opened Models
  import opened RunStore
  import opened Adk
  import opened TanstackStream
  import opened TanstackToAdk

  /** The tools the client executes itself. */
  const ClientToolNames: set<string> := {"export_csv"}

  /**
   * What a step is given and does not change: the run and its model, the engine's user id,
   * the time stamped on the chunks, the JSON serializer, the hex digits of the fresh uuid
   * drawn when the tool-call counter stands at a given value, and the engine.
   */
  datatype Ctx = Ctx(runId: string, model: string, userId: string, now: int, dumps: Value -> string,
                     uuidHex: nat -> string, respond: (seq<Invocation>, Invocation) -> EngineRun)

  /** The state a step changes. */
  datatype State = State(acc: string, index: nat, runs: Runs, history: seq<Invocation>)

  /** The state after a step, and the chunks it emitted. */
  datatype Out = Out(st: State, chunks: seq<StreamChunk>)

  /**
   * The chunks translated from engine events: each carries the run id, the model and the time,
   * and is text, a tool call, an approval request or a tool result; never an error, the end of
   * the stream, or a tool handed to the client.
   */
  predicate Translated(ctx: Ctx, chunks: seq<StreamChunk>) {
    forall i :: 0 <= i < |chunks| ==>
      && chunks[i].id == ctx.runId && chunks[i].model == ctx.model && chunks[i].timestamp == ctx.now
      && (chunks[i].ContentChunk? || chunks[i].ToolCallChunk? || chunks[i].ApprovalRequestedChunk?
          || chunks[i].ToolResultChunk?)
  }

  // ----- Text parts -----

  /**
   * The new text a text part contributes. A final (non-streaming) text that extends what has
   * been accumulated contributes only its extension; any other text is taken whole.
   */
  function TextDelta(acc: string, text: string, partial: bool): (d: string)
    ensures !partial && acc <= text ==> acc + d == text
    ensures partial || !(acc <= text) ==> d == text
  {
    if !partial && acc <= text then text[|acc|..] else text
  }

  /** A non-empty text part: one content chunk carrying the delta and the whole accumulated text. */
  function TextStep(ctx: Ctx, st: State, text: string, partial: bool): (o: Out)
    ensures o.st == st.(acc := o.st.acc)
    ensures |o.chunks| == 1 && o.chunks[0].ContentChunk? && o.chunks[0].role == Some(Assistant)
    ensures o.chunks[0].content == o.st.acc == st.acc + o.chunks[0].delta
    ensures !partial && st.acc <= text ==> o.st.acc == text
    ensures Translated(ctx, o.chunks)
  {
    var delta := TextDelta(st.acc, text, partial);
    Out(st.(acc := st.acc + delta), [ContentChunk(ctx.runId, ctx.model, ctx.now, st.acc + delta, delta, Some(Assistant))])
  }

  // ----- Function calls -----

  /** The id a tool call is shown under: the engine's id when it has a non-empty one, else a fresh one. */
  function ToolCallId(ctx: Ctx, st: State, call: FunctionCall): (id: string)
    ensures call.id.Some? && call.id.value != "" ==> id == call.id.value
    ensures call.id.None? || call.id.value == "" ==> id == "tool_" + ctx.uuidHex(st.index)
  {
    if call.id.Some? && call.id.value != "" then call.id.value else "tool_" + ctx.uuidHex(st.index)
  }

  /** `x or default` for an optional string. */
  function NameOr(name: Option<string>, default: string): string {
    if name.Some? && name.value != "" then name.value else default
  }

  /** `args or {}`. */
  function ArgsOf(call: FunctionCall): map<string, Value> {
    if call.args.Some? then call.args.value else map[]
  }

  /**
   * An ordinary function call: registered as a pending client tool when the client executes
   * it, and shown as one tool-call chunk numbered with the counter, which moves on by one.
   */
  function PlainCallStep(ctx: Ctx, st: State, ev: Event, call: FunctionCall): (o: Out)
    ensures o.st.acc == st.acc && o.st.history == st.history && o.st.index == st.index + 1
    ensures |o.chunks| == 1 && o.chunks[0].ToolCallChunk? && o.chunks[0].index == st.index
    ensures o.chunks[0].toolCall.id == ToolCallId(ctx, st, call)
    ensures o.chunks[0].toolCall.fn == ToolCallFunction(NameOr(call.name, ""), ctx.dumps(Obj(ArgsOf(call))))
    ensures call.name.Some? && call.name.value in ClientToolNames ==>
      PendingClientToolOf(o.st.runs, ctx.runId, ToolCallId(ctx, st, call))
        == Some(NewPendingAction(ClientTool, ToolCallId(ctx, st, call), call.name.value, Obj(ArgsOf(call)), ev.invocationId))
    ensures !(call.name.Some? && call.name.value in ClientToolNames) ==> o.st.runs == st.runs
    ensures Translated(ctx, o.chunks)
    ensures WellKeyed(st.runs) ==> WellKeyed(o.st.runs)
  {
    var id := ToolCallId(ctx, st, call);
    var input := Obj(ArgsOf(call));
    var runs :=
      if call.name.Some? && call.name.value in ClientToolNames
      then ClientToolAdded(st.runs, ctx.runId,
                           NewPendingAction(ClientTool, id, NameOr(call.name, "unknown"), input, ev.invocationId))
      else st.runs;
    var action := NewPendingAction(ClientTool, id, NameOr(call.name, "unknown"), input, ev.invocationId);
    ClientToolAddedTouchesOneEntry(st.runs, ctx.runId, action, "", "");
    ClientToolAddedKeepsWellKeyed(st.runs, ctx.runId, action);
    Out(st.(index := st.index + 1, runs := runs),
        [ToolCallChunk(ctx.runId, ctx.model, ctx.now, st.index,
                       ToolCall(id, ToolCallFunction(NameOr(call.name, ""), ctx.dumps(input))))])
  }

  /** `args.get("originalFunctionCall") or {}`, as an object. */
  function OriginalCall(call: FunctionCall): map<string, Value> {
    var original := GetField(ArgsOf(call), "originalFunctionCall");
    if original.Obj? then original.fields else map[]
  }

  /** A JSON value used where a non-empty string id or name is needed. */
  function NonEmptyStr(v: Value): (r: Option<string>)
    ensures r.Some? <==> v.Str? && v.s != ""
    ensures r.Some? ==> v == Str(r.value)
  {
    if v.Str? && v.s != "" then Some(v.s) else None
  }

  /**
   * A confirmation request: when it names the call it guards (an id and a name), that call
   * becomes a pending approval remembering the confirmation's own id, and one
   * approval-requested chunk asks the client; otherwise nothing happens.
   */
  function ConfirmationStep(ctx: Ctx, st: State, ev: Event, call: FunctionCall): (o: Out)
    ensures o.st == st.(runs := o.st.runs)
    ensures var orig := OriginalCall(call);
      NonEmptyStr(GetField(orig, "id")).None? || NonEmptyStr(GetField(orig, "name")).None? ==> o == Out(st, [])
    ensures var orig := OriginalCall(call);
      NonEmptyStr(GetField(orig, "id")).Some? && NonEmptyStr(GetField(orig, "name")).Some? ==>
        var id := GetField(orig, "id").s;
        && PendingApprovalOf(o.st.runs, ctx.runId, id)
             == Some(PendingAction(Approval, id, GetField(orig, "name").s, GetField(orig, "args"), ev.invocationId, call.id))
        && |o.chunks| == 1 && o.chunks[0].ApprovalRequestedChunk?
        && o.chunks[0].toolCallId == id && o.chunks[0].approval == ApprovalObj(id)
        && o.chunks[0].toolName == GetField(orig, "name").s && o.chunks[0].input == GetField(orig, "args")
    ensures Translated(ctx, o.chunks)
    ensures WellKeyed(st.runs) ==> WellKeyed(o.st.runs)
  {
    var orig := OriginalCall(call);
    var id := NonEmptyStr(GetField(orig, "id"));
    var name := NonEmptyStr(GetField(orig, "name"));
    if id.None? || name.None? then Out(st, [])
    else
      var input := GetField(orig, "args");
      var action := PendingAction(Approval, id.value, name.value, input, ev.invocationId, call.id);
      ApprovalAddedTouchesOneEntry(st.runs, ctx.runId, action, "", "");
      ApprovalAddedKeepsWellKeyed(st.runs, ctx.runId, action);
      Out(st.(runs := ApprovalAdded(st.runs, ctx.runId, action)),
          [ApprovalRequestedChunk(ctx.runId, ctx.model, ctx.now, id.value, name.value, input, ApprovalObj(id.value))])
  }

  /** `_handle_function_call`: a confirmation request or an ordinary call. */
  function CallStep(ctx: Ctx, st: State, ev: Event, call: FunctionCall): Out {
    if call.name == Some(RequestConfirmationName) then ConfirmationStep(ctx, st, ev, call)
    else PlainCallStep(ctx, st, ev, call)
  }

  // ----- Function responses -----

  /** A value shown as text: a string as it is, anything else serialized. */
  function AsText(dumps: Value -> string, v: Value): string {
    if v.Str? then v.s else dumps(v)
  }

  /**
   * `_extract_tool_result_content`: the first of `output`, `result` and `response` present in
   * the response, or the whole response, as text; nothing when there is no response.
   */
  function ExtractToolResultContent(dumps: Value -> string, response: Option<map<string, Value>>): (r: Option<string>)
    ensures r.Some? <==> response.Some?
    ensures response.Some? && "output" in response.value ==> r == Some(AsText(dumps, response.value["output"]))
    ensures (response.Some? && "output" !in response.value && "result" in response.value) ==>
      r == Some(AsText(dumps, response.value["result"]))
    ensures (response.Some? && "output" !in response.value && "result" !in response.value
             && "response" in response.value) ==>
      r == Some(AsText(dumps, response.value["response"]))
    ensures (response.Some? && "output" !in response.value && "result" !in response.value
             && "response" !in response.value) ==>
      r == Some(dumps(Obj(response.value)))
  {
    match response
    case None => None
    case Some(m) =>
      var value :=
        if "output" in m then m["output"]
        else if "result" in m then m["result"]
        else if "response" in m then m["response"]
        else Obj(m);
      Some(AsText(dumps, value))
  }

  /** Whether a function response is shown: not the engine's own confirmation traffic, and not empty. */
  predicate ShowsResponse(ev: Event, resp: FunctionResponse) {
    && resp.name != Some(RequestConfirmationName)
    && !(resp.id.Some? && resp.id.value in ev.requestedConfirmations)
    && resp.response.Some?
  }

  /** `_handle_function_response`: one tool-result chunk when the response is shown, none otherwise. */
  function ResponseChunks(ctx: Ctx, ev: Event, resp: FunctionResponse): (chunks: seq<StreamChunk>)
    ensures |chunks| == if ShowsResponse(ev, resp) then 1 else 0
    ensures ShowsResponse(ev, resp) ==>
      chunks[0] == ToolResultChunk(ctx.runId, ctx.model, ctx.now, NameOr(resp.id, ""),
                                   ExtractToolResultContent(ctx.dumps, resp.response).value)
  {
    if resp.name == Some(RequestConfirmationName) then []
    else if resp.id.Some? && resp.id.value in ev.requestedConfirmations then []
    else
      match ExtractToolResultContent(ctx.dumps, resp.response)
      case None => []
      case Some(content) => [ToolResultChunk(ctx.runId, ctx.model, ctx.now, NameOr(resp.id, ""), content)]
  }

  // ----- Parts and events -----

  /** The text of a part, if it has any. */
  function PartText(ctx: Ctx, st: State, ev: Event, part: Part): Out {
    if part.text.Some? && part.text.value != "" then TextStep(ctx, st, part.text.value, ev.partial) else Out(st, [])
  }

  /** A part whose text is missing or empty emits nothing for its text: it acts as a part without text. */
  lemma EmptyTextEmitsNothing(ctx: Ctx, st: State, ev: Event, part: Part)
    requires part.text.None? || part.text.value == ""
    ensures PartText(ctx, st, ev, part) == Out(st, [])
    ensures PartStep(ctx, st, ev, part) == PartStep(ctx, st, ev, part.(text := None))
  {
  }

  /** The function call of a part, if it has one. */
  function PartCall(ctx: Ctx, st: State, ev: Event, part: Part): Out {
    if part.functionCall.Some? then CallStep(ctx, st, ev, part.functionCall.value) else Out(st, [])
  }

  /** The function response of a part, if it has one. */
  function PartResponse(ctx: Ctx, st: State, ev: Event, part: Part): Out {
    Out(st, if part.functionResponse.Some? then ResponseChunks(ctx, ev, part.functionResponse.value) else [])
  }

  /** One step after another: the state of the second, the chunks of both. */
  function Then(o: Out, p: Out): Out {
    Out(p.st, o.chunks + p.chunks)
  }

  /** One part: its text, then its function call, then its function response. */
  function PartStep(ctx: Ctx, st: State, ev: Event, part: Part): Out {
    var o1 := PartText(ctx, st, ev, part);
    var o2 := PartCall(ctx, o1.st, ev, part);
    Then(Then(o1, o2), PartResponse(ctx, o2.st, ev, part))
  }

  /** The parts of one event, in order. */
  function PartsStep(ctx: Ctx, st: State, ev: Event, parts: seq<Part>): Out {
    if parts == [] then Out(st, [])
    else
      var o := PartsStep(ctx, st, ev, parts[..|parts| - 1]);
      Then(o, PartStep(ctx, o.st, ev, parts[|parts| - 1]))
  }

  /** `_event_to_chunks`: record a non-empty invocation id, then translate the parts. */
  function EventStep(ctx: Ctx, st: State, ev: Event): Out {
    var st1 :=
      if ev.invocationId.Some? && ev.invocationId.value != ""
      then st.(runs := InvocationSet(st.runs, ctx.runId, ev.invocationId.value))
      else st;
    PartsStep(ctx, st1, ev, if ev.content.Some? then ev.content.value.parts else [])
  }

  /** The events of one engine run, in order. */
  function EventsStep(ctx: Ctx, st: State, evs: seq<Event>): Out {
    if evs == [] then Out(st, [])
    else
      var o := EventsStep(ctx, st, evs[..|evs| - 1]);
      Then(o, EventStep(ctx, o.st, evs[|evs| - 1]))
  }

  /** The chunks of an engine run: its events translated, then an error chunk if an exception ended it. */
  function RunStep(ctx: Ctx, st: State, run: EngineRun): Out {
    var o := EventsStep(ctx, st, run.events);
    if run.failure.Some? then Out(o.st, o.chunks + [ErrorChunk(ctx.runId, ctx.model, ctx.now, ErrorObj(run.failure.value))])
    else o
  }

  /** The invocation `_run_with_content` sends: on the run's own session. */
  function InvocationOf(ctx: Ctx, invocationId: Option<string>, message: Content): Invocation {
    Invocation(ctx.userId, ctx.runId, invocationId, message)
  }

  /** `_run_with_content`: the engine answers one invocation and its events are translated. */
  function RunContent(ctx: Ctx, st: State, invocationId: Option<string>, message: Content): Out {
    var inv := InvocationOf(ctx, invocationId, message);
    RunStep(ctx, st.(history := st.history + [inv]), ctx.respond(st.history, inv))
  }

  /** `run_from_user_text`: the run is created if new, then the text goes to the engine as a new invocation. */
  function RunFromUserText(ctx: Ctx, st: State, text: string): Out {
    RunContent(ctx, st.(runs := Created(st.runs, ctx.runId)), None, BuildUserContent(text))
  }

  // ----- What every translation step keeps -----

  /**
   * A translation step leaves the engine history alone, only moves the tool-call counter
   * forward and numbers its tool-call chunks with exactly the values the counter passed, emits
   * only translated chunks, and keeps a well-keyed table well keyed.
   */
  predicate Sound(ctx: Ctx, st: State, o: Out) {
    && o.st.history == st.history
    && st.index <= o.st.index && ToolCallIndices(o.chunks) == Range(st.index, o.st.index)
    && Translated(ctx, o.chunks)
    && (WellKeyed(st.runs) ==> WellKeyed(o.st.runs))
  }

  /** Two sound steps in a row make a sound step. */
  lemma Chain(ctx: Ctx, st: State, o: Out, p: Out)
    requires Sound(ctx, st, o) && Sound(ctx, o.st, p)
    ensures Sound(ctx, st, Then(o, p))
  {
    ToolCallIndicesAppend(o.chunks, p.chunks);
    RangeAppend(st.index, o.st.index, p.st.index);
    assert forall i :: 0 <= i < |p.chunks| ==> (o.chunks + p.chunks)[|o.chunks| + i] == p.chunks[i];
  }

  lemma NoChunksSound(ctx: Ctx, st: State)
    ensures Sound(ctx, st, Out(st, []))
  {
  }

  lemma CallStepSound(ctx: Ctx, st: State, ev: Event, call: FunctionCall)
    ensures Sound(ctx, st, CallStep(ctx, st, ev, call))
  {
    var o := CallStep(ctx, st, ev, call);
    if call.name == Some(RequestConfirmationName) {
      ToolCallIndicesOfOthers(o.chunks);
    } else {
      assert o.chunks[..0] == [];
      assert ToolCallIndices(o.chunks) == [st.index];
    }
  }

  lemma {:induction false} PartStepSound(ctx: Ctx, st: State, ev: Event, part: Part)
    ensures Sound(ctx, st, PartStep(ctx, st, ev, part))
  {
    var o1 := PartText(ctx, st, ev, part);
    ToolCallIndicesOfOthers(o1.chunks);
    var o2 := PartCall(ctx, o1.st, ev, part);
    if part.functionCall.Some? {
      CallStepSound(ctx, o1.st, ev, part.functionCall.value);
    }
    var o3 := PartResponse(ctx, o2.st, ev, part);
    ToolCallIndicesOfOthers(o3.chunks);
    Chain(ctx, st, o1, o2);
    Chain(ctx, st, Then(o1, o2), o3);
  }

  lemma {:induction false} PartsStepSound(ctx: Ctx, st: State, ev: Event, parts: seq<Part>)
    ensures Sound(ctx, st, PartsStep(ctx, st, ev, parts))
  {
    if parts != [] {
      var o := PartsStep(ctx, st, ev, parts[..|parts| - 1]);
      PartsStepSound(ctx, st, ev, parts[..|parts| - 1]);
      PartStepSound(ctx, o.st, ev, parts[|parts| - 1]);
      Chain(ctx, st, o, PartStep(ctx, o.st, ev, parts[|parts| - 1]));
    }
  }

  lemma EventStepSound(ctx: Ctx, st: State, ev: Event)
    ensures Sound(ctx, st, EventStep(ctx, st, ev))
  {
    InvocationSetKeepsWellKeyed(st.runs, ctx.runId, ev.invocationId.GetOr(""));
    var st1 :=
      if ev.invocationId.Some? && ev.invocationId.value != ""
      then st.(runs := InvocationSet(st.runs, ctx.runId, ev.invocationId.value))
      else st;
    PartsStepSound(ctx, st1, ev, if ev.content.Some? then ev.content.value.parts else []);
  }

  lemma {:induction false} EventsStepSound(ctx: Ctx, st: State, evs: seq<Event>)
    ensures Sound(ctx, st, EventsStep(ctx, st, evs))
  {
    if evs != [] {
      var o := EventsStep(ctx, st, evs[..|evs| - 1]);
      EventsStepSound(ctx, st, evs[..|evs| - 1]);
      EventStepSound(ctx, o.st, evs[|evs| - 1]);
      Chain(ctx, st, o, EventStep(ctx, o.st, evs[|evs| - 1]));
    }
  }

  /**
   * An engine run emits translated chunks only, except that an exception that ended the run
   * adds one error chunk carrying its message, after all the others; the counter and the table
   * behave as for any translation step.
   */
  lemma RunStepSound(ctx: Ctx, st: State, run: EngineRun)
    ensures var o := RunStep(ctx, st, run);
      && o.st.history == st.history
      && st.index <= o.st.index && ToolCallIndices(o.chunks) == Range(st.index, o.st.index)
      && (WellKeyed(st.runs) ==> WellKeyed(o.st.runs))
      && (run.failure.None? ==> Translated(ctx, o.chunks))
      && (run.failure.Some? ==>
            && |o.chunks| > 0 && Translated(ctx, o.chunks[..|o.chunks| - 1])
            && o.chunks[|o.chunks| - 1] == ErrorChunk(ctx.runId, ctx.model, ctx.now, ErrorObj(run.failure.value)))
  {
    var o := EventsStep(ctx, st, run.events);
    EventsStepSound(ctx, st, run.events);
    if run.failure.Some? {
      var err := [ErrorChunk(ctx.runId, ctx.model, ctx.now, ErrorObj(run.failure.value))];
      ToolCallIndicesAppend(o.chunks, err);
      ToolCallIndicesOfOthers(err);
      assert (o.chunks + err)[..|o.chunks|] == o.chunks;
    }
  }

  /**
   * Running content sends the engine exactly one invocation, on the run's session; the counter
   * and the table behave as for any translation step.
   */
  lemma RunContentSound(ctx: Ctx, st: State, invocationId: Option<string>, message: Content)
    ensures var o := RunContent(ctx, st, invocationId, message);
      && o.st.history == st.history + [InvocationOf(ctx, invocationId, message)]
      && st.index <= o.st.index && ToolCallIndices(o.chunks) == Range(st.index, o.st.index)
      && (WellKeyed(st.runs) ==> WellKeyed(o.st.runs))
  {
    var inv := InvocationOf(ctx, invocationId, message);
    RunStepSound(ctx, st.(history := st.history + [inv]), ctx.respond(st.history, inv));
  }

  /** A user text becomes one new invocation of the engine. */
  lemma RunFromUserTextSound(ctx: Ctx, st: State, text: string)
    ensures var o := RunFromUserText(ctx, st, text);
      && o.st.history == st.history + [InvocationOf(ctx, None, BuildUserContent(text))]
      && st.index <= o.st.index && ToolCallIndices(o.chunks) == Range(st.index, o.st.index)
      && (WellKeyed(st.runs) ==> WellKeyed(o.st.runs))
  {
    CreatedKeepsWellKeyed(st.runs, ctx.runId);
    RunContentSound(ctx, st.(runs := Created(st.runs, ctx.runId)), None, BuildUserContent(text));
  }

  // ----- Properties -----

  /** The confirmation request the engine issues for a call with this id, name and arguments. */
  function ConfirmationFor(confirmationId: Option<string>, id: string, name: string, args: map<string, Value>): FunctionCall {
    FunctionCall(confirmationId, Some(RequestConfirmationName),
                 Some(map["originalFunctionCall" := Obj(map["id" := Str(id), "name" := Str(name), "args" := Obj(args)])]))
  }

  /**
   * A client-executed tool that also needs approval is pending twice: its call registers it as
   * a client tool and the confirmation request that follows registers it as an approval, both
   * under the same tool_call_id.
   */
  lemma ClientToolAwaitsApprovalAndResult(ctx: Ctx, st: State, callEvent: Event, confirmEvent: Event,
                                          id: string, args: map<string, Value>, confirmationId: Option<string>)
    requires id != ""
    ensures var o1 := CallStep(ctx, st, callEvent, FunctionCall(Some(id), Some("export_csv"), Some(args)));
      var o2 := CallStep(ctx, o1.st, confirmEvent, ConfirmationFor(confirmationId, id, "export_csv", args));
      && PendingClientToolOf(o2.st.runs, ctx.runId, id)
           == Some(PendingAction(ClientTool, id, "export_csv", Obj(args), callEvent.invocationId))
      && PendingApprovalOf(o2.st.runs, ctx.runId, id)
           == Some(PendingAction(Approval, id, "export_csv", Obj(args), confirmEvent.invocationId, confirmationId))
  {
    var call := FunctionCall(Some(id), Some("export_csv"), Some(args));
    var o1 := CallStep(ctx, st, callEvent, call);
    assert ToolCallId(ctx, st, call) == id;
    var confirm := ConfirmationFor(confirmationId, id, "export_csv", args);
    assert OriginalCall(confirm) == map["id" := Str(id), "name" := Str("export_csv"), "args" := Obj(args)];
    var action := PendingAction(Approval, id, "export_csv", Obj(args), confirmEvent.invocationId, confirmationId);
    ApprovalAddedTouchesOneEntry(o1.st.runs, ctx.runId, action, ctx.runId, id);
  }

  /** An event whose content is one text part. */
  function TextEvent(text: string, partial: bool): Event {
    Event(None, partial, Some(Content("model", [Part(Some(text), None, None)])), {})
  }

  /** One text event per text, all streaming fragments or all final. */
  function TextEvents(texts: seq<string>, partial: bool): seq<Event> {
    if texts == [] then [] else TextEvents(texts[..|texts| - 1], partial) + [TextEvent(texts[|texts| - 1], partial)]
  }

  function Concat(texts: seq<string>): string {
    if texts == [] then "" else Concat(texts[..|texts| - 1]) + texts[|texts| - 1]
  }

  /** A text event adds its delta to the accumulator and emits the one content chunk that reports it. */
  lemma TextEventStep(ctx: Ctx, st: State, text: string, partial: bool)
    requires text != ""
    ensures EventStep(ctx, st, TextEvent(text, partial)).st.acc == st.acc + TextDelta(st.acc, text, partial)
    ensures EventStep(ctx, st, TextEvent(text, partial)).chunks == TextStep(ctx, st, text, partial).chunks
  {
    var ev := TextEvent(text, partial);
    var part := Part(Some(text), None, None);
    var o := PartStep(ctx, st, ev, part);
    assert o == Then(Then(TextStep(ctx, st, text, partial), Out(o.st, [])), Out(o.st, []));
    assert [part][..0] == [];
    assert PartsStep(ctx, st, ev, [part]) == Then(Out(st, []), o);
  }

  /** Translating one more event after a sequence of them. */
  lemma EventsStepSnoc(ctx: Ctx, st: State, evs: seq<Event>, ev: Event)
    ensures EventsStep(ctx, st, evs + [ev]).st == EventStep(ctx, EventsStep(ctx, st, evs).st, ev).st
    ensures EventsStep(ctx, st, evs + [ev]).chunks
         == EventsStep(ctx, st, evs).chunks + EventStep(ctx, EventsStep(ctx, st, evs).st, ev).chunks
  {
    assert (evs + [ev])[..|evs|] == evs;
  }

  /** One more streaming fragment adds itself to the accumulator. */
  lemma StreamedTextStep(ctx: Ctx, st: State, texts: seq<string>)
    requires texts != [] && texts[|texts| - 1] != ""
    ensures EventsStep(ctx, st, TextEvents(texts, true)).st.acc
         == EventsStep(ctx, st, TextEvents(texts[..|texts| - 1], true)).st.acc + texts[|texts| - 1]
  {
    var init := TextEvents(texts[..|texts| - 1], true);
    var last := TextEvent(texts[|texts| - 1], true);
    assert TextEvents(texts, true) == init + [last];
    EventsStepSnoc(ctx, st, init, last);
    TextEventStep(ctx, EventsStep(ctx, st, init).st, texts[|texts| - 1], true);
  }

  /** A function of a prefix that grows by each next element is the start value followed by their concatenation. */
  lemma {:induction false} AppendingFold(f: seq<string> -> string, texts: seq<string>)
    requires forall k :: 0 < k <= |texts| ==> f(texts[..k]) == f(texts[..k - 1]) + texts[k - 1]
    ensures f(texts) == f([]) + Concat(texts)
  {
    if texts != [] {
      var init := texts[..|texts| - 1];
      forall k | 0 < k <= |init|
        ensures f(init[..k]) == f(init[..k - 1]) + init[k - 1]
      {
        assert init[..k] == texts[..k] && init[..k - 1] == texts[..k - 1];
      }
      AppendingFold(f, init);
      assert texts[..|texts|] == texts;
    } else {
      assert texts == [];
    }
  }

  /** Streaming fragments accumulate: the accumulator grows by each fragment in turn. */
  lemma StreamedTextsAccumulate(ctx: Ctx, st: State, texts: seq<string>)
    requires forall i :: 0 <= i < |texts| ==> texts[i] != ""
    ensures EventsStep(ctx, st, TextEvents(texts, true)).st.acc == st.acc + Concat(texts)
  {
    var f := (xs: seq<string>) => EventsStep(ctx, st, TextEvents(xs, true)).st.acc;
    forall k | 0 < k <= |texts|
      ensures f(texts[..k]) == f(texts[..k - 1]) + texts[k - 1]
    {
      StreamedTextStep(ctx, st, texts[..k]);
      assert texts[..k][..k - 1] == texts[..k - 1];
    }
    AppendingFold(f, texts);
    assert TextEvents([], true) == [];
  }

  /**
   * A final event repeating the text streamed so far adds nothing: the accumulator keeps the
   * streamed text and the last content chunk has an empty delta.
   */
  lemma FinalTextAfterStreaming(ctx: Ctx, st: State, texts: seq<string>)
    requires st.acc == "" && texts != []
    requires forall i :: 0 <= i < |texts| ==> texts[i] != ""
    ensures var o := EventsStep(ctx, st, TextEvents(texts, true) + [TextEvent(Concat(texts), false)]);
      o.st.acc == Concat(texts) && o.chunks[|o.chunks| - 1].delta == ""
  {
    var o := EventsStep(ctx, st, TextEvents(texts, true));
    var t := Concat(texts);
    assert o.st.acc == t by {
      StreamedTextsAccumulate(ctx, st, texts);
    }
    assert t != "" by {
      assert t == Concat(texts[..|texts| - 1]) + texts[|texts| - 1];
    }
    var e := EventStep(ctx, o.st, TextEvent(t, false));
    assert e.st.acc == t && e.chunks[|e.chunks| - 1].delta == "" by {
      TextEventStep(ctx, o.st, t, false);
    }
    EventsStepSnoc(ctx, st, TextEvents(texts, true), TextEvent(t, false));
  }

  /**
   * The accumulator is never reset, so a second streamed segment is counted twice: after
   * "Hello", the fragment "World" and then its final repetition "World" leave the accumulator at
   * "HelloWorldWorld", because the final text does not start with the accumulated one.
   */
  lemma SecondStreamedSegmentCountedTwice(ctx: Ctx, st: State)
    requires st.acc == "Hello"
    ensures EventsStep(ctx, st, [TextEvent("World", true), TextEvent("World", false)]).st.acc == "HelloWorldWorld"
  {
    EventsStepSnoc(ctx, st, [], TextEvent("World", true));
    assert [] + [TextEvent("World", true)] == [TextEvent("World", true)];
    EventsStepSnoc(ctx, st, [TextEvent("World", true)], TextEvent("World", false));
    assert [TextEvent("World", true)] + [TextEvent("World", false)] == [TextEvent("World", true), TextEvent("World", false)];
    TextEventStep(ctx, st, "World", true);
    var o := EventStep(ctx, st, TextEvent("World", true));
    assert o.st.acc == "HelloWorld";
    TextEventStep(ctx, o.st, "World", false);
    assert !("HelloWorld" <= "World");
  }

  // ----- Tool-call numbering -----

  /** The indices of the tool-call chunks among `chunks`, in order. */
  function ToolCallIndices(chunks: seq<StreamChunk>): seq<int> {
    if chunks == [] then []
    else
      var last := chunks[|chunks| - 1];
      ToolCallIndices(chunks[..|chunks| - 1]) + (if last.ToolCallChunk? then [last.index] else [])
  }

  /** `lo, lo + 1, …, hi - 1`. */
  function Range(lo: int, hi: int): (r: seq<int>)
    requires lo <= hi
    ensures |r| == hi - lo
    ensures forall i :: 0 <= i < |r| ==> r[i] == lo + i
    decreases hi - lo
  {
    if lo == hi then [] else Range(lo, hi - 1) + [hi - 1]
  }

  lemma {:induction false} ToolCallIndicesAppend(a: seq<StreamChunk>, b: seq<StreamChunk>)
    ensures ToolCallIndices(a + b) == ToolCallIndices(a) + ToolCallIndices(b)
  {
    if b == [] {
      assert a + b == a;
    } else {
      ToolCallIndicesAppend(a, b[..|b| - 1]);
      assert (a + b)[..|a + b| - 1] == a + b[..|b| - 1];
      assert (a + b)[|a + b| - 1] == b[|b| - 1];
    }
  }

  lemma {:induction false} ToolCallIndicesOfOthers(chunks: seq<StreamChunk>)
    requires forall i :: 0 <= i < |chunks| ==> !chunks[i].ToolCallChunk?
    ensures ToolCallIndices(chunks) == []
  {
    if chunks != [] {
      ToolCallIndicesOfOthers(chunks[..|chunks| - 1]);
    }
  }

  lemma RangeAppend(lo: int, mid: int, hi: int)
    requires lo <= mid <= hi
    ensures Range(lo, mid) + Range(mid, hi) == Range(lo, hi)
  {
  }
}
