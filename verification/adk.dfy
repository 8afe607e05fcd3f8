/**
 * The agent engine as the adapter sees it: the message and event records it exchanges with
 * the engine, and the engine itself as a black box. The engine's answer to an invocation is a
 * function `respond` of every earlier invocation and the new one, so it may depend on its
 * whole session history but on nothing the model does not pass it.
 */
module Adk {
  import opened Wrappers
  import opened Json

  /** The name the engine gives the function call that asks for a tool confirmation. */
  const RequestConfirmationName: string := "adk_request_confirmation"

  datatype FunctionCall = FunctionCall(id: Option<string>, name: Option<string>, args: Option<map<string, Value>>)

  datatype FunctionResponse = FunctionResponse(id: Option<string>, name: Option<string>,
                                               response: Option<map<string, Value>>)

  /** A message part: each of its three fields may be set independently of the others. */
  datatype Part = Part(text: Option<string>, functionCall: Option<FunctionCall>,
                       functionResponse: Option<FunctionResponse>)

  datatype Content = Content(role: string, parts: seq<Part>)

  /**
   * One engine event. `partial` is true only for a streaming fragment (`partial is True`);
   * `requestedConfirmations` holds the keys of `actions.requested_tool_confirmations`.
   */
  datatype Event = Event(invocationId: Option<string>, partial: bool, content: Option<Content>,
                         requestedConfirmations: set<string>)

  /**
   * What one `run_async` call produces: the events yielded, and the message of the exception
   * that ended the run early, if one did.
   */
  datatype EngineRun = EngineRun(events: seq<Event>, failure: Option<string>)

  /** The arguments of one `run_async` call. */
  datatype Invocation = Invocation(userId: string, sessionId: string, invocationId: Option<string>, message: Content)

  /** The engine: the invocations it has received, and how it answers the next one. */
  class Runner {
    var history: seq<Invocation>
    const respond: (seq<Invocation>, Invocation) -> EngineRun

    constructor (respond: (seq<Invocation>, Invocation) -> EngineRun)
      ensures history == [] && this.respond == respond
    {
      history := [];
      this.respond := respond;
    }

    /** `run_async`: the engine records the invocation and answers it. */
    method RunAsync(invocation: Invocation) returns (run: EngineRun)
      modifies this
      ensures run == respond(old(history), invocation)
      ensures history == old(history) + [invocation]
    {
      run := respond(history, invocation);
      history := history + [invocation];
    }
  }
}
