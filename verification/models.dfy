/** The domain records of the backend: a pending action and the per-run state holding them. */
module Models {
  import opened Wrappers
  import opened Json

  /** `PendingAction.kind`: exactly two values. */
  datatype ActionKind = Approval | ClientTool {

    /** The literal the record carries. */
    function Literal(): (s: string)
      ensures s == "approval" || s == "client_tool"
      ensures s == "approval" <==> this == Approval
    {
      match this
      case Approval => "approval"
      case ClientTool => "client_tool"
    }
  }

  /**
   * An action that waits for a decision from outside the engine. `toolInput` is `Null` for
   * Python's `None`. The adapter copies the event's invocation id, which the engine may leave
   * unset, so `invocationId` is optional here. `created_at` is not modelled (it is never read).
   */
  datatype PendingAction = PendingAction(
    kind: ActionKind,
    toolCallId: string,
    toolName: string,
    toolInput: Value,
    invocationId: Option<string>,
    adkConfirmationCallId: Option<string> := None)

  /** The state of one run: both pending maps go from a tool_call_id to its action. */
  datatype RunState = RunState(
    runId: string,
    sessionId: string,
    invocationId: Option<string> := None,
    pendingApprovals: map<string, PendingAction> := map[],
    pendingClientTools: map<string, PendingAction> := map[])

  /** The record built with only its two identifiers given: every other field at its default. */
  function FreshRunState(runId: string, sessionId: string): (s: RunState)
    ensures s.runId == runId && s.sessionId == sessionId
    ensures s.invocationId == None
    ensures s.pendingApprovals == map[] && s.pendingClientTools == map[]
  {
    RunState(runId, sessionId)
  }

  /** A pending action built without a confirmation id gets none. */
  function NewPendingAction(kind: ActionKind, toolCallId: string, toolName: string,
                            toolInput: Value, invocationId: Option<string>): (a: PendingAction)
    ensures a.adkConfirmationCallId == None
    ensures a.kind == kind && a.toolCallId == toolCallId && a.toolName == toolName
    ensures a.toolInput == toolInput && a.invocationId == invocationId
  {
    PendingAction(kind, toolCallId, toolName, toolInput, invocationId)
  }
}
