/**
 * The stream chunks sent to the chat client, their JSON form (`model_dump`) and their
 * event-stream framing. JSON text itself is produced by a serializer passed in as
 * `dumps`; only what surrounds it is defined here.
 */
module TanstackStream {
  import opened Wrappers
  import opened Json

  datatype FinishReason = Stop | Length | ToolCalls | ContentFilter {
    function Literal(): string {
      match this
      case Stop => "stop"
      case Length => "length"
      case ToolCalls => "tool_calls"
      case ContentFilter => "content_filter"
    }
  }

  /** `role: Literal["assistant"] | None`: the one role a content chunk can name. */
  datatype Role = Assistant

  datatype Usage = Usage(completionTokens: int, promptTokens: int, totalTokens: int)

  datatype ToolCallFunction = ToolCallFunction(name: string, arguments: string)

  /** A tool call; its `type` is always "function" and so is not stored. */
  datatype ToolCall = ToolCall(id: string, fn: ToolCallFunction)

  /** An approval request; `needsApproval` is always true and so is not stored. */
  datatype ApprovalObj = ApprovalObj(id: string)

  datatype ErrorObj = ErrorObj(message: string, code: Option<string> := None)

  /** The closed set of chunk variants; each carries the run id, the model name and a timestamp. */
  datatype StreamChunk =
    | ContentChunk(id: string, model: string, timestamp: int, content: string, delta: string, role: Option<Role>)
    | ThinkingChunk(id: string, model: string, timestamp: int, content: string, delta: string)
    | ToolCallChunk(id: string, model: string, timestamp: int, index: int, toolCall: ToolCall)
    | ToolResultChunk(id: string, model: string, timestamp: int, toolCallId: string, content: string)
    | ToolInputAvailableChunk(id: string, model: string, timestamp: int, toolCallId: string, toolName: string, input: Value)
    | ApprovalRequestedChunk(id: string, model: string, timestamp: int, toolCallId: string, toolName: string,
                             input: Value, approval: ApprovalObj)
    | ErrorChunk(id: string, model: string, timestamp: int, error: ErrorObj)
    | DoneChunk(id: string, model: string, timestamp: int, finishReason: FinishReason, usage: Option<Usage>)

  /** The `type` tag of each variant. */
  function TypeTag(c: StreamChunk): string {
    match c
    case ContentChunk(_, _, _, _, _, _) => "content"
    case ThinkingChunk(_, _, _, _, _) => "thinking"
    case ToolCallChunk(_, _, _, _, _) => "tool_call"
    case ToolResultChunk(_, _, _, _, _) => "tool_result"
    case ToolInputAvailableChunk(_, _, _, _, _, _) => "tool-input-available"
    case ApprovalRequestedChunk(_, _, _, _, _, _, _) => "approval-requested"
    case ErrorChunk(_, _, _, _) => "error"
    case DoneChunk(_, _, _, _, _) => "done"
  }

  /** Distinct variants carry distinct tags, so a client can tell every chunk apart by its tag. */
  lemma TypeTagIdentifiesVariant(c1: StreamChunk, c2: StreamChunk)
    ensures TypeTag(c1) == TypeTag(c2) <==> (
      && c1.ContentChunk? == c2.ContentChunk? && c1.ThinkingChunk? == c2.ThinkingChunk?
      && c1.ToolCallChunk? == c2.ToolCallChunk? && c1.ToolResultChunk? == c2.ToolResultChunk?
      && c1.ToolInputAvailableChunk? == c2.ToolInputAvailableChunk?
      && c1.ApprovalRequestedChunk? == c2.ApprovalRequestedChunk?
      && c1.ErrorChunk? == c2.ErrorChunk? && c1.DoneChunk? == c2.DoneChunk?)
  {
  }

  function OptionalStr(o: Option<string>): Value {
    if o.Some? then Str(o.value) else Null
  }

  function UsageJson(u: Option<Usage>): Value {
    match u
    case None => Null
    case Some(Usage(c, p, t)) => Obj(map["completionTokens" := Num(c), "promptTokens" := Num(p), "totalTokens" := Num(t)])
  }

  /** `chunk.model_dump(by_alias=True)`: every field, unset optional ones as null. */
  function ChunkJson(c: StreamChunk): (v: Value)
    ensures v.Obj? && "type" in v.fields && v.fields["type"] == Str(TypeTag(c))
    ensures GetField(v.fields, "id") == Str(c.id) && GetField(v.fields, "model") == Str(c.model)
    ensures GetField(v.fields, "timestamp") == Num(c.timestamp)
    ensures c.ToolCallChunk? ==>
      GetField(v.fields, "toolCall").Obj? && GetField(GetField(v.fields, "toolCall").fields, "type") == Str("function")
    ensures c.ApprovalRequestedChunk? ==>
      GetField(v.fields, "approval") == Obj(map["id" := Str(c.approval.id), "needsApproval" := Bool(true)])
    ensures c.ErrorChunk? && c.error.code.None? ==>
      GetField(v.fields, "error").Obj? && GetField(GetField(v.fields, "error").fields, "code") == Null
    ensures c.DoneChunk? ==> GetField(v.fields, "finishReason") == Str(c.finishReason.Literal())
    ensures c.DoneChunk? && c.usage.None? ==> GetField(v.fields, "usage") == Null
  {
    var base := map["id" := Str(c.id), "model" := Str(c.model), "timestamp" := Num(c.timestamp), "type" := Str(TypeTag(c))];
    match c
    case ContentChunk(_, _, _, content, delta, role) =>
      Obj(base["content" := Str(content)]["delta" := Str(delta)]["role" := if role.Some? then Str("assistant") else Null])
    case ThinkingChunk(_, _, _, content, delta) =>
      Obj(base["content" := Str(content)]["delta" := Str(delta)])
    case ToolCallChunk(_, _, _, index, ToolCall(tid, ToolCallFunction(name, arguments))) =>
      Obj(base["index" := Num(index)]["toolCall" := Obj(map[
        "id" := Str(tid), "type" := Str("function"),
        "function" := Obj(map["name" := Str(name), "arguments" := Str(arguments)])])])
    case ToolResultChunk(_, _, _, toolCallId, content) =>
      Obj(base["toolCallId" := Str(toolCallId)]["content" := Str(content)])
    case ToolInputAvailableChunk(_, _, _, toolCallId, toolName, input) =>
      Obj(base["toolCallId" := Str(toolCallId)]["toolName" := Str(toolName)]["input" := input])
    case ApprovalRequestedChunk(_, _, _, toolCallId, toolName, input, approval) =>
      Obj(base["toolCallId" := Str(toolCallId)]["toolName" := Str(toolName)]["input" := input]
        ["approval" := Obj(map["id" := Str(approval.id), "needsApproval" := Bool(true)])])
    case ErrorChunk(_, _, _, ErrorObj(message, code)) =>
      Obj(base["error" := Obj(map["message" := Str(message), "code" := OptionalStr(code)])])
    case DoneChunk(_, _, _, finishReason, usage) =>
      Obj(base["finishReason" := Str(finishReason.Literal())]["usage" := UsageJson(usage)])
  }

  const DataPrefix: string := "data: "
  const RecordEnd: string := "\n\n"

  /** One event-stream record carrying `payload`. */
  function Frame(payload: string): (s: string)
    ensures |s| == |payload| + 8
    ensures s[..6] == DataPrefix && s[|s| - 2..] == RecordEnd
  {
    DataPrefix + payload + RecordEnd
  }

  /** The payload of an event-stream record, if `s` is one. */
  function Unframe(s: string): Option<string> {
    if |s| >= 8 && s[..6] == DataPrefix && s[|s| - 2..] == RecordEnd then Some(s[6..|s| - 2]) else None
  }

  /** Framing is undone by `Unframe`: the client reads back exactly the payload that was sent. */
  lemma FrameRoundTrip(payload: string)
    ensures Unframe(Frame(payload)) == Some(payload)
  {
    var s := Frame(payload);
    assert s[6..|s| - 2] == payload;
  }

  /** `encode_chunk`: the serialized `model_dump` of the chunk in one record. */
  function EncodeChunk(dumps: Value -> string, c: StreamChunk): (s: string)
    ensures Unframe(s) == Some(dumps(ChunkJson(c)))
  {
    FrameRoundTrip(dumps(ChunkJson(c)));
    Frame(dumps(ChunkJson(c)))
  }

  /** `encode_done`: the sentinel record that ends the stream. */
  function EncodeDone(): (s: string)
    ensures s == "data: [DONE]\n\n"
    ensures Unframe(s) == Some("[DONE]")
  {
    FrameRoundTrip("[DONE]");
    Frame("[DONE]")
  }

  /** Every chunk of a stream, encoded in order. */
  function EncodeAll(dumps: Value -> string, chunks: seq<StreamChunk>): (frames: seq<string>)
    ensures |frames| == |chunks|
    ensures forall i :: 0 <= i < |chunks| ==> frames[i] == EncodeChunk(dumps, chunks[i])
  {
    seq(|chunks|, i requires 0 <= i < |chunks| => EncodeChunk(dumps, chunks[i]))
  }
}
