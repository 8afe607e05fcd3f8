/**
 * `resume_from_continuation` as functions: the plan a continuation payload produces (the
 * store after its pops, the function responses to send grouped by invocation, and the
 * client-tool chunks to emit first), and the engine runs that carry the responses out.
 */
module ResumePlan {
  import opened Wrappers
  import opened Json
  import opened Models
  import opened RunStore
  import opened OrderedMap
  import opened Adk
  import opened TanstackStream
  import opened TanstackToAdk
  import opened Translation
  import opened Continuation

  /** Function responses to send, each with the invocation it resumes, in the order they were decided. */
  type Log = seq<(Option<string>, FunctionResponse)>

  datatype Plan = Plan(runs: Runs, approvalLog: Log, toolLog: Log, dispatched: seq<StreamChunk>)

  /** The answer to a confirmation request: whether the user approved, as Python's `bool`. */
  function ConfirmationResponse(confirmationId: string, approved: Value): (r: FunctionResponse)
    ensures r.id == Some(confirmationId) && r.name == Some(RequestConfirmationName)
    ensures r.response == Some(map["confirmed" := Bool(Truthy(approved))])
  {
    FunctionResponse(Some(confirmationId), Some(RequestConfirmationName), Some(map["confirmed" := Bool(Truthy(approved))]))
  }

  /** A client's tool result with its `{"output": …}` wrapper, if it has one, removed. */
  function Unwrap(result: Value): (v: Value)
    ensures result.Obj? && "output" in result.fields ==> v == result.fields["output"]
    ensures !(result.Obj? && "output" in result.fields) ==> v == result
  {
    if result.Obj? && "output" in result.fields then result.fields["output"] else result
  }

  /** The function response that hands a client's tool result back to the engine. */
  function ToolResultResponse(toolCallId: string, toolName: string, result: Value): FunctionResponse {
    FunctionResponse(Some(toolCallId), Some(toolName), Some(map["output" := Unwrap(result)]))
  }

  /** The chunk that hands an approved client tool to the client. */
  function Dispatch(ctx: Ctx, a: PendingAction): StreamChunk {
    ToolInputAvailableChunk(ctx.runId, ctx.model, ctx.now, a.toolCallId, a.toolName, a.toolInput)
  }

  /** One `approvals` item. */
  function ApprovalStep(ctx: Ctx, p: Plan, toolCallId: string, approved: Value): Plan {
    var (runs, pending) := ApprovalPopped(p.runs, ctx.runId, toolCallId);
    if pending.None? then p.(runs := runs)
    else
      var a := pending.value;
      if a.adkConfirmationCallId.None? || a.adkConfirmationCallId.value == "" then p.(runs := runs)
      else
        var log := p.approvalLog + [(a.invocationId, ConfirmationResponse(a.adkConfirmationCallId.value, approved))];
        if a.toolName !in ClientToolNames then p.(runs := runs, approvalLog := log)
        else if Truthy(approved) then p.(runs := runs, approvalLog := log, dispatched := p.dispatched + [Dispatch(ctx, a)])
        else p.(runs := ClientToolPopped(runs, ctx.runId, a.toolCallId).0, approvalLog := log)
  }

  /** One `tool_results` item. */
  function ToolResultStep(ctx: Ctx, p: Plan, toolCallId: string, result: Value): Plan {
    var (runs, pending) := ClientToolPopped(p.runs, ctx.runId, toolCallId);
    if pending.None? then p.(runs := runs)
    else
      var response := ToolResultResponse(toolCallId, pending.value.toolName, result);
      p.(runs := runs, toolLog := p.toolLog + [(pending.value.invocationId, response)])
  }

  function ApprovalsPlan(ctx: Ctx, p: Plan, items: seq<(string, Value)>): Plan {
    if items == [] then p
    else
      var last := items[|items| - 1];
      ApprovalStep(ctx, ApprovalsPlan(ctx, p, items[..|items| - 1]), last.0, last.1)
  }

  function ToolResultsPlan(ctx: Ctx, p: Plan, items: seq<(string, Value)>): Plan {
    if items == [] then p
    else
      var last := items[|items| - 1];
      ToolResultStep(ctx, ToolResultsPlan(ctx, p, items[..|items| - 1]), last.0, last.1)
  }

  /** The plan of a payload: the run is created if new, then the approvals and the tool results are decided in order. */
  function PlanFor(ctx: Ctx, runs: Runs, payload: Payload): Plan {
    var p0 := Plan(Created(runs, ctx.runId), [], [], []);
    ToolResultsPlan(ctx, ApprovalsPlan(ctx, p0, payload.approvals), payload.toolResults)
  }

  /** The engine runs to make: the approval groups first, then the tool-result groups, each in order of first use. */
  function Groups(p: Plan): seq<(Option<string>, seq<FunctionResponse>)> {
    GroupBy(p.approvalLog) + GroupBy(p.toolLog)
  }

  /** The groups, each run as one invocation carrying its responses. */
  function Drive(ctx: Ctx, st: State, groups: seq<(Option<string>, seq<FunctionResponse>)>): Out {
    if groups == [] then Out(st, [])
    else
      var o := Drive(ctx, st, groups[..|groups| - 1]);
      var g := groups[|groups| - 1];
      Then(o, RunContent(ctx, o.st, g.0, BuildFunctionResponseContent(g.1)))
  }

  /** Running the groups up to `k + 1` is running them up to `k`, then group `k`. */
  lemma DriveStep(ctx: Ctx, st: State, groups: seq<(Option<string>, seq<FunctionResponse>)>, k: nat)
    requires k < |groups|
    ensures var o := Drive(ctx, st, groups[..k]);
      Drive(ctx, st, groups[..k + 1]) == Then(o, RunContent(ctx, o.st, groups[k].0, BuildFunctionResponseContent(groups[k].1)))
  {
    assert groups[..k + 1][..k] == groups[..k];
  }

  /** `resume_from_continuation`: the client-tool chunks, then the chunks of each engine run. */
  function Resume(ctx: Ctx, st: State, payload: Payload): Out {
    var p := PlanFor(ctx, st.runs, payload);
    var o := Drive(ctx, st.(runs := p.runs), Groups(p));
    Out(o.st, p.dispatched + o.chunks)
  }

  /** The invocations the engine receives for the groups. */
  function InvocationsFor(ctx: Ctx, groups: seq<(Option<string>, seq<FunctionResponse>)>): (invs: seq<Invocation>)
    ensures |invs| == |groups|
  {
    if groups == [] then []
    else
      var g := groups[|groups| - 1];
      InvocationsFor(ctx, groups[..|groups| - 1]) + [InvocationOf(ctx, g.0, BuildFunctionResponseContent(g.1))]
  }

  // ----- One approval -----

  /** An approval for a tool_call_id that is not pending changes nothing. */
  lemma UnknownApprovalIgnored(ctx: Ctx, p: Plan, toolCallId: string, approved: Value)
    requires PendingApprovalOf(p.runs, ctx.runId, toolCallId).None?
    ensures ApprovalStep(ctx, p, toolCallId, approved) == p
  {
    if ctx.runId in p.runs {
      var s := p.runs[ctx.runId];
      assert s.pendingApprovals - {toolCallId} == s.pendingApprovals;
      assert p.runs[ctx.runId := s] == p.runs;
    }
  }

  /**
   * An approval whose pending action lost its confirmation id is consumed and nothing else
   * happens: no response is sent, and a client tool of the same id stays pending.
   */
  lemma ApprovalWithoutConfirmationId(ctx: Ctx, p: Plan, toolCallId: string, approved: Value, r: string, id: string)
    requires PendingApprovalOf(p.runs, ctx.runId, toolCallId).Some?
    requires var a := PendingApprovalOf(p.runs, ctx.runId, toolCallId).value;
      a.adkConfirmationCallId.None? || a.adkConfirmationCallId.value == ""
    ensures var q := ApprovalStep(ctx, p, toolCallId, approved);
      && q == p.(runs := q.runs)
      && PendingApprovalOf(q.runs, ctx.runId, toolCallId) == None
      && PendingClientToolOf(q.runs, r, id) == PendingClientToolOf(p.runs, r, id)
  {
    ApprovalPopRemovesOnce(p.runs, ctx.runId, toolCallId, r, id);
  }

  /**
   * A decided approval of a pending action with a confirmation id is consumed and answers the
   * confirmation under the action's invocation. For a client-executed tool, approval hands the
   * tool to the client (one chunk) and leaves it pending as a client tool until its result
   * comes; denial drops the client tool too. Any other tool is only answered.
   */
  lemma ApprovalDecided(ctx: Ctx, p: Plan, toolCallId: string, approved: Value, r: string, id: string)
    requires PendingApprovalOf(p.runs, ctx.runId, toolCallId).Some?
    requires var a := PendingApprovalOf(p.runs, ctx.runId, toolCallId).value;
      a.adkConfirmationCallId.Some? && a.adkConfirmationCallId.value != ""
    ensures var a := PendingApprovalOf(p.runs, ctx.runId, toolCallId).value;
      var q := ApprovalStep(ctx, p, toolCallId, approved);
      && PendingApprovalOf(q.runs, ctx.runId, toolCallId) == None
      && q.approvalLog == p.approvalLog + [(a.invocationId, ConfirmationResponse(a.adkConfirmationCallId.value, approved))]
      && q.toolLog == p.toolLog
      && (a.toolName in ClientToolNames && Truthy(approved) ==>
            q.dispatched == p.dispatched + [Dispatch(ctx, a)]
            && PendingClientToolOf(q.runs, r, id) == PendingClientToolOf(p.runs, r, id))
      && (a.toolName in ClientToolNames && !Truthy(approved) ==>
            q.dispatched == p.dispatched && PendingClientToolOf(q.runs, ctx.runId, a.toolCallId) == None)
      && (a.toolName !in ClientToolNames ==>
            q.dispatched == p.dispatched && PendingClientToolOf(q.runs, r, id) == PendingClientToolOf(p.runs, r, id))
  {
    var a := PendingApprovalOf(p.runs, ctx.runId, toolCallId).value;
    ApprovalPopRemovesOnce(p.runs, ctx.runId, toolCallId, r, id);
    var runs := ApprovalPopped(p.runs, ctx.runId, toolCallId).0;
    ClientToolPopRemovesOnce(runs, ctx.runId, a.toolCallId, ctx.runId, toolCallId);
    ClientToolPopRemovesOnce(runs, ctx.runId, a.toolCallId, ctx.runId, a.toolCallId);
  }

  // ----- One tool result -----

  /** A tool result for a tool_call_id that is not a pending client tool changes nothing. */
  lemma UnknownToolResultIgnored(ctx: Ctx, p: Plan, toolCallId: string, result: Value)
    requires PendingClientToolOf(p.runs, ctx.runId, toolCallId).None?
    ensures ToolResultStep(ctx, p, toolCallId, result) == p
  {
    if ctx.runId in p.runs {
      var s := p.runs[ctx.runId];
      assert s.pendingClientTools - {toolCallId} == s.pendingClientTools;
      assert p.runs[ctx.runId := s] == p.runs;
    }
  }

  /**
   * A tool result for a pending client tool consumes it and sends its output back to the
   * engine, under the invocation that called the tool and with the tool's name.
   */
  lemma ToolResultForwarded(ctx: Ctx, p: Plan, toolCallId: string, result: Value)
    requires PendingClientToolOf(p.runs, ctx.runId, toolCallId).Some?
    ensures var c := PendingClientToolOf(p.runs, ctx.runId, toolCallId).value;
      var q := ToolResultStep(ctx, p, toolCallId, result);
      && PendingClientToolOf(q.runs, ctx.runId, toolCallId) == None
      && q.toolLog == p.toolLog + [(c.invocationId, ToolResultResponse(toolCallId, c.toolName, result))]
      && q.approvalLog == p.approvalLog && q.dispatched == p.dispatched
  {
    ClientToolPopRemovesOnce(p.runs, ctx.runId, toolCallId, ctx.runId, toolCallId);
  }

  /**
   * A tool result sent back to the engine reaches the client as the tool's output: when the
   * engine reports the response, it is shown under the same tool_call_id with the unwrapped
   * output as its text. A confirmation answer, by contrast, is never shown.
   */
  lemma ToolResultRoundTrip(ctx: Ctx, ev: Event, toolCallId: string, toolName: string, result: Value, confirmationId: string, approved: Value)
    requires toolCallId != "" && toolCallId !in ev.requestedConfirmations
    requires toolName != RequestConfirmationName
    ensures ResponseChunks(ctx, ev, ToolResultResponse(toolCallId, toolName, result))
         == [ToolResultChunk(ctx.runId, ctx.model, ctx.now, toolCallId, AsText(ctx.dumps, Unwrap(result)))]
    ensures ResponseChunks(ctx, ev, ConfirmationResponse(confirmationId, approved)) == []
  {
  }

  // ----- The whole plan -----

  /** The chunks a plan dispatches: client tools handed over, stamped with the run, model and time. */
  predicate Dispatches(ctx: Ctx, chunks: seq<StreamChunk>) {
    forall i :: 0 <= i < |chunks| ==>
      chunks[i].ToolInputAvailableChunk? && chunks[i].id == ctx.runId && chunks[i].model == ctx.model
      && chunks[i].timestamp == ctx.now
  }

  /** A plan step keeps the table well keyed and only ever dispatches client tools. */
  predicate PlanKeeps(ctx: Ctx, p: Plan, q: Plan) {
    && (WellKeyed(p.runs) ==> WellKeyed(q.runs))
    && (Dispatches(ctx, p.dispatched) ==> Dispatches(ctx, q.dispatched))
  }

  lemma ApprovalStepKeeps(ctx: Ctx, p: Plan, toolCallId: string, approved: Value)
    ensures PlanKeeps(ctx, p, ApprovalStep(ctx, p, toolCallId, approved))
  {
    PoppedKeepsWellKeyed(p.runs, ctx.runId, toolCallId);
    var runs := ApprovalPopped(p.runs, ctx.runId, toolCallId).0;
    var pending := ApprovalPopped(p.runs, ctx.runId, toolCallId).1;
    if pending.Some? {
      PoppedKeepsWellKeyed(runs, ctx.runId, pending.value.toolCallId);
    }
  }

  lemma ToolResultStepKeeps(ctx: Ctx, p: Plan, toolCallId: string, result: Value)
    ensures PlanKeeps(ctx, p, ToolResultStep(ctx, p, toolCallId, result))
  {
    PoppedKeepsWellKeyed(p.runs, ctx.runId, toolCallId);
  }

  lemma {:induction false} ApprovalsPlanKeeps(ctx: Ctx, p: Plan, items: seq<(string, Value)>)
    ensures PlanKeeps(ctx, p, ApprovalsPlan(ctx, p, items))
  {
    if items != [] {
      var last := items[|items| - 1];
      ApprovalsPlanKeeps(ctx, p, items[..|items| - 1]);
      ApprovalStepKeeps(ctx, ApprovalsPlan(ctx, p, items[..|items| - 1]), last.0, last.1);
    }
  }

  lemma {:induction false} ToolResultsPlanKeeps(ctx: Ctx, p: Plan, items: seq<(string, Value)>)
    ensures PlanKeeps(ctx, p, ToolResultsPlan(ctx, p, items))
  {
    if items != [] {
      var last := items[|items| - 1];
      ToolResultsPlanKeeps(ctx, p, items[..|items| - 1]);
      ToolResultStepKeeps(ctx, ToolResultsPlan(ctx, p, items[..|items| - 1]), last.0, last.1);
    }
  }

  /**
   * The engine receives exactly one invocation per group, in order, each carrying its group's
   * responses; the tool-call numbering stays consecutive and the table well keyed.
   */
  lemma {:induction false} DriveSound(ctx: Ctx, st: State, groups: seq<(Option<string>, seq<FunctionResponse>)>)
    ensures var o := Drive(ctx, st, groups);
      && o.st.history == st.history + InvocationsFor(ctx, groups)
      && st.index <= o.st.index && ToolCallIndices(o.chunks) == Range(st.index, o.st.index)
      && (WellKeyed(st.runs) ==> WellKeyed(o.st.runs))
  {
    if groups != [] {
      var init := groups[..|groups| - 1];
      var g := groups[|groups| - 1];
      DriveSound(ctx, st, init);
      var o := Drive(ctx, st, init);
      RunContentSound(ctx, o.st, g.0, BuildFunctionResponseContent(g.1));
      var r := RunContent(ctx, o.st, g.0, BuildFunctionResponseContent(g.1));
      ToolCallIndicesAppend(o.chunks, r.chunks);
      RangeAppend(st.index, o.st.index, r.st.index);
    }
  }

  /**
   * A continuation first hands the approved client tools to the client, then resumes the
   * engine once per group of responses, approvals before tool results: the engine's history
   * grows by exactly those invocations. The table stays well keyed and the tool-call chunks
   * stay numbered consecutively from where the counter stood.
   */
  lemma ResumeSound(ctx: Ctx, st: State, payload: Payload)
    ensures var p := PlanFor(ctx, st.runs, payload);
      var o := Resume(ctx, st, payload);
      && Dispatches(ctx, p.dispatched)
      && o.chunks[..|p.dispatched|] == p.dispatched
      && o.st.history == st.history + InvocationsFor(ctx, Groups(p))
      && st.index <= o.st.index && ToolCallIndices(o.chunks) == Range(st.index, o.st.index)
      && (WellKeyed(st.runs) ==> WellKeyed(o.st.runs) && WellKeyed(p.runs))
  {
    var p0 := Plan(Created(st.runs, ctx.runId), [], [], []);
    CreatedKeepsWellKeyed(st.runs, ctx.runId);
    ApprovalsPlanKeeps(ctx, p0, payload.approvals);
    ToolResultsPlanKeeps(ctx, ApprovalsPlan(ctx, p0, payload.approvals), payload.toolResults);
    var p := PlanFor(ctx, st.runs, payload);
    DriveSound(ctx, st.(runs := p.runs), Groups(p));
    var o := Drive(ctx, st.(runs := p.runs), Groups(p));
    ToolCallIndicesOfOthers(p.dispatched);
    ToolCallIndicesAppend(p.dispatched, o.chunks);
    assert (p.dispatched + o.chunks)[..|p.dispatched|] == p.dispatched;
  }

  /**
   * Every group the engine is resumed with names a distinct invocation within its phase, and
   * holds exactly the responses decided for that invocation, in the order they were decided.
   */
  lemma GroupsAreComplete(p: Plan, invocationId: Option<string>)
    ensures DistinctKeys(GroupBy(p.approvalLog)) && DistinctKeys(GroupBy(p.toolLog))
    ensures Get(GroupBy(p.approvalLog), invocationId)
         == if ValuesFor(p.approvalLog, invocationId) == [] then None else Some(ValuesFor(p.approvalLog, invocationId))
    ensures Get(GroupBy(p.toolLog), invocationId)
         == if ValuesFor(p.toolLog, invocationId) == [] then None else Some(ValuesFor(p.toolLog, invocationId))
  {
    GroupByKeys(p.approvalLog);
    GroupByKeys(p.toolLog);
    GroupByGet(p.approvalLog, invocationId);
    GroupByGet(p.toolLog, invocationId);
  }
}
