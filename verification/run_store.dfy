/**
 * The in-memory run store: a table from run id to `RunState`, updated in place. The pure
 * functions below give the table after each operation; the class `InMemoryRunStore`
 * performs the operations on its `runs` field and is proved to agree with them.
 */
module RunStore {
  import opened Wrappers
  import opened Models

  type Runs = map<string, RunState>

  /** The table after `get_or_create(run_id)`: a missing run gets a fresh state keyed by its own id. */
  function Created(runs: Runs, runId: string): (r: Runs)
    ensures runId in r
    ensures runId in runs ==> r == runs
    ensures runId !in runs ==> r[runId] == FreshRunState(runId, runId)
    ensures forall id :: id != runId ==> (id in r <==> id in runs)
    ensures forall id :: id != runId && id in runs ==> r[id] == runs[id]
  {
    if runId in runs then runs else runs[runId := FreshRunState(runId, runId)]
  }

  /** `get(run_id)`. */
  function Lookup(runs: Runs, runId: string): Option<RunState> {
    if runId in runs then Some(runs[runId]) else None
  }

  /** The table after `set_invocation_id`. */
  function InvocationSet(runs: Runs, runId: string, invocationId: string): Runs {
    var c := Created(runs, runId);
    c[runId := c[runId].(invocationId := Some(invocationId))]
  }

  /** The table after `add_pending_approval`: stored under the action's own tool_call_id. */
  function ApprovalAdded(runs: Runs, runId: string, action: PendingAction): Runs {
    var c := Created(runs, runId);
    c[runId := c[runId].(pendingApprovals := c[runId].pendingApprovals[action.toolCallId := action])]
  }

  /** The table after `add_pending_client_tool`. */
  function ClientToolAdded(runs: Runs, runId: string, action: PendingAction): Runs {
    var c := Created(runs, runId);
    c[runId := c[runId].(pendingClientTools := c[runId].pendingClientTools[action.toolCallId := action])]
  }

  /** `get_pending_approval`. */
  function PendingApprovalOf(runs: Runs, runId: string, toolCallId: string): Option<PendingAction> {
    if runId in runs && toolCallId in runs[runId].pendingApprovals
    then Some(runs[runId].pendingApprovals[toolCallId])
    else None
  }

  /** `get_pending_client_tool`. */
  function PendingClientToolOf(runs: Runs, runId: string, toolCallId: string): Option<PendingAction> {
    if runId in runs && toolCallId in runs[runId].pendingClientTools
    then Some(runs[runId].pendingClientTools[toolCallId])
    else None
  }

  /** `pop_pending_approval`: the table afterwards and the action removed. */
  function ApprovalPopped(runs: Runs, runId: string, toolCallId: string): (Runs, Option<PendingAction>) {
    if runId !in runs then (runs, None)
    else
      var s := runs[runId];
      (runs[runId := s.(pendingApprovals := s.pendingApprovals - {toolCallId})],
       PendingApprovalOf(runs, runId, toolCallId))
  }

  /** `pop_pending_client_tool`. */
  function ClientToolPopped(runs: Runs, runId: string, toolCallId: string): (Runs, Option<PendingAction>) {
    if runId !in runs then (runs, None)
    else
      var s := runs[runId];
      (runs[runId := s.(pendingClientTools := s.pendingClientTools - {toolCallId})],
       PendingClientToolOf(runs, runId, toolCallId))
  }

  /** `has_pending`. */
  predicate Pending(runs: Runs, runId: string) {
    runId in runs && (runs[runId].pendingApprovals != map[] || runs[runId].pendingClientTools != map[])
  }

  /** A run has pending work iff some tool_call_id is pending in one of its two maps. */
  lemma PendingIff(runs: Runs, runId: string)
    ensures Pending(runs, runId) <==>
      exists id :: PendingApprovalOf(runs, runId, id).Some? || PendingClientToolOf(runs, runId, id).Some?
  {
    if Pending(runs, runId) {
      var s := runs[runId];
      if s.pendingApprovals != map[] {
        var id :| id in s.pendingApprovals;
        assert PendingApprovalOf(runs, runId, id).Some?;
      } else {
        var id :| id in s.pendingClientTools;
        assert PendingClientToolOf(runs, runId, id).Some?;
      }
    }
  }

  /** `get_or_create` twice is `get_or_create` once. */
  lemma CreatedIdempotent(runs: Runs, runId: string)
    ensures Created(Created(runs, runId), runId) == Created(runs, runId)
  {
  }

  /**
   * Adding an approval stores it under its tool_call_id, overwriting, and touches nothing
   * else: not another id, not another run, not the client-tool map.
   */
  lemma ApprovalAddedTouchesOneEntry(runs: Runs, runId: string, action: PendingAction, r: string, id: string)
    ensures PendingApprovalOf(ApprovalAdded(runs, runId, action), runId, action.toolCallId) == Some(action)
    ensures (r, id) != (runId, action.toolCallId) ==>
      PendingApprovalOf(ApprovalAdded(runs, runId, action), r, id) == PendingApprovalOf(runs, r, id)
    ensures PendingClientToolOf(ApprovalAdded(runs, runId, action), r, id) == PendingClientToolOf(runs, r, id)
  {
  }

  /** The same for client tools. */
  lemma ClientToolAddedTouchesOneEntry(runs: Runs, runId: string, action: PendingAction, r: string, id: string)
    ensures PendingClientToolOf(ClientToolAdded(runs, runId, action), runId, action.toolCallId) == Some(action)
    ensures (r, id) != (runId, action.toolCallId) ==>
      PendingClientToolOf(ClientToolAdded(runs, runId, action), r, id) == PendingClientToolOf(runs, r, id)
    ensures PendingApprovalOf(ClientToolAdded(runs, runId, action), r, id) == PendingApprovalOf(runs, r, id)
  {
  }

  /**
   * A pop returns what a get would have returned and removes it, so popping again returns
   * None; the same id in the client-tool map, and every other entry, stays.
   */
  lemma ApprovalPopRemovesOnce(runs: Runs, runId: string, toolCallId: string, r: string, id: string)
    ensures ApprovalPopped(runs, runId, toolCallId).1 == PendingApprovalOf(runs, runId, toolCallId)
    ensures ApprovalPopped(ApprovalPopped(runs, runId, toolCallId).0, runId, toolCallId).1 == None
    ensures PendingClientToolOf(ApprovalPopped(runs, runId, toolCallId).0, r, id) == PendingClientToolOf(runs, r, id)
    ensures (r, id) != (runId, toolCallId) ==>
      PendingApprovalOf(ApprovalPopped(runs, runId, toolCallId).0, r, id) == PendingApprovalOf(runs, r, id)
  {
  }

  /** The same for client tools. */
  lemma ClientToolPopRemovesOnce(runs: Runs, runId: string, toolCallId: string, r: string, id: string)
    ensures ClientToolPopped(runs, runId, toolCallId).1 == PendingClientToolOf(runs, runId, toolCallId)
    ensures ClientToolPopped(ClientToolPopped(runs, runId, toolCallId).0, runId, toolCallId).1 == None
    ensures PendingApprovalOf(ClientToolPopped(runs, runId, toolCallId).0, r, id) == PendingApprovalOf(runs, r, id)
    ensures (r, id) != (runId, toolCallId) ==>
      PendingClientToolOf(ClientToolPopped(runs, runId, toolCallId).0, r, id) == PendingClientToolOf(runs, r, id)
  {
  }

  /** Reads and pops on a run the store has never seen return nothing and do not create it. */
  lemma UnknownRunIsNotCreated(runs: Runs, runId: string, toolCallId: string)
    requires runId !in runs
    ensures Lookup(runs, runId) == None && !Pending(runs, runId)
    ensures PendingApprovalOf(runs, runId, toolCallId) == None
    ensures PendingClientToolOf(runs, runId, toolCallId) == None
    ensures ApprovalPopped(runs, runId, toolCallId) == (runs, None)
    ensures ClientToolPopped(runs, runId, toolCallId) == (runs, None)
  {
  }

  /** `set_invocation_id` creates the run if needed and changes only its `invocation_id`. */
  lemma InvocationSetChangesOnlyInvocation(runs: Runs, runId: string, invocationId: string)
    ensures runId in InvocationSet(runs, runId, invocationId)
    ensures InvocationSet(runs, runId, invocationId)[runId]
      == Created(runs, runId)[runId].(invocationId := Some(invocationId))
    ensures forall id :: id != runId && id in runs ==>
      (id in InvocationSet(runs, runId, invocationId) && InvocationSet(runs, runId, invocationId)[id] == runs[id])
  {
  }

  /** A run's state names the run as its run and session, and each pending action is filed under its own id. */
  predicate WellKeyedRun(runId: string, s: RunState) {
    && s.runId == runId && s.sessionId == runId
    && (forall id :: id in s.pendingApprovals ==>
          s.pendingApprovals[id].toolCallId == id && s.pendingApprovals[id].kind == Approval)
    && (forall id :: id in s.pendingClientTools ==>
          s.pendingClientTools[id].toolCallId == id && s.pendingClientTools[id].kind == ClientTool)
  }

  /** The store's invariant: every run is well keyed. */
  predicate WellKeyed(runs: Runs) {
    forall r :: r in runs ==> WellKeyedRun(r, runs[r])
  }

  /** Creating a run keeps the table well keyed: the fresh state names its own run. */
  lemma CreatedKeepsWellKeyed(runs: Runs, runId: string)
    ensures WellKeyed(runs) ==> WellKeyed(Created(runs, runId))
  {
  }

  /** Recording an invocation id keeps the table well keyed. */
  lemma InvocationSetKeepsWellKeyed(runs: Runs, runId: string, invocationId: string)
    ensures WellKeyed(runs) ==> WellKeyed(InvocationSet(runs, runId, invocationId))
  {
    CreatedKeepsWellKeyed(runs, runId);
  }

  /** Adding an approval keeps the table well keyed. */
  lemma ApprovalAddedKeepsWellKeyed(runs: Runs, runId: string, action: PendingAction)
    ensures WellKeyed(runs) && action.kind == Approval ==> WellKeyed(ApprovalAdded(runs, runId, action))
  {
    CreatedKeepsWellKeyed(runs, runId);
  }

  /** Adding a client tool keeps the table well keyed. */
  lemma ClientToolAddedKeepsWellKeyed(runs: Runs, runId: string, action: PendingAction)
    ensures WellKeyed(runs) && action.kind == ClientTool ==> WellKeyed(ClientToolAdded(runs, runId, action))
  {
    CreatedKeepsWellKeyed(runs, runId);
  }

  /** Popping keeps the table well keyed. */
  lemma PoppedKeepsWellKeyed(runs: Runs, runId: string, toolCallId: string)
    ensures WellKeyed(runs) ==> WellKeyed(ApprovalPopped(runs, runId, toolCallId).0)
    ensures WellKeyed(runs) ==> WellKeyed(ClientToolPopped(runs, runId, toolCallId).0)
  {
  }

  /** In a well-keyed table a pop yields an action of the popped map's kind, carrying the id asked for. */
  lemma PoppedActionMatches(runs: Runs, runId: string, toolCallId: string)
    requires WellKeyed(runs)
    ensures ApprovalPopped(runs, runId, toolCallId).1.Some? ==>
      ApprovalPopped(runs, runId, toolCallId).1.value.toolCallId == toolCallId
      && ApprovalPopped(runs, runId, toolCallId).1.value.kind == Approval
    ensures ClientToolPopped(runs, runId, toolCallId).1.Some? ==>
      ClientToolPopped(runs, runId, toolCallId).1.value.toolCallId == toolCallId
      && ClientToolPopped(runs, runId, toolCallId).1.value.kind == ClientTool
  {
  }

  class InMemoryRunStore {
    var runs: Runs

    constructor ()
      ensures runs == map[]
    {
      runs := map[];
    }

    method GetOrCreate(runId: string) returns (state: RunState)
      modifies this
      ensures runs == Created(old(runs), runId)
      ensures state == runs[runId]
    {
      if runId !in runs {
        runs := runs[runId := RunState(runId, runId)];
      }
      state := runs[runId];
    }

    method Get(runId: string) returns (state: Option<RunState>)
      ensures state.Some? <==> runId in runs
      ensures state.Some? ==> state.value == runs[runId]
    {
      state := if runId in runs then Some(runs[runId]) else None;
    }

    method SetInvocationId(runId: string, invocationId: string)
      modifies this
      ensures runs == InvocationSet(old(runs), runId, invocationId)
    {
      var state := GetOrCreate(runId);
      runs := runs[runId := state.(invocationId := Some(invocationId))];
    }

    method AddPendingApproval(runId: string, action: PendingAction)
      modifies this
      ensures runs == ApprovalAdded(old(runs), runId, action)
    {
      var state := GetOrCreate(runId);
      runs := runs[runId := state.(pendingApprovals := state.pendingApprovals[action.toolCallId := action])];
    }

    method AddPendingClientTool(runId: string, action: PendingAction)
      modifies this
      ensures runs == ClientToolAdded(old(runs), runId, action)
    {
      var state := GetOrCreate(runId);
      runs := runs[runId := state.(pendingClientTools := state.pendingClientTools[action.toolCallId := action])];
    }

    method GetPendingApproval(runId: string, toolCallId: string) returns (action: Option<PendingAction>)
      ensures action.Some? <==> runId in runs && toolCallId in runs[runId].pendingApprovals
      ensures action.Some? ==> action.value == runs[runId].pendingApprovals[toolCallId]
    {
      var state := Get(runId);
      if state.None? {
        return None;
      }
      action := if toolCallId in state.value.pendingApprovals
                then Some(state.value.pendingApprovals[toolCallId]) else None;
    }

    method GetPendingClientTool(runId: string, toolCallId: string) returns (action: Option<PendingAction>)
      ensures action.Some? <==> runId in runs && toolCallId in runs[runId].pendingClientTools
      ensures action.Some? ==> action.value == runs[runId].pendingClientTools[toolCallId]
    {
      var state := Get(runId);
      if state.None? {
        return None;
      }
      action := if toolCallId in state.value.pendingClientTools
                then Some(state.value.pendingClientTools[toolCallId]) else None;
    }

    method PopPendingApproval(runId: string, toolCallId: string) returns (action: Option<PendingAction>)
      modifies this
      ensures (runs, action) == ApprovalPopped(old(runs), runId, toolCallId)
    {
      var state := Get(runId);
      if state.None? {
        return None;
      }
      var s := state.value;
      action := if toolCallId in s.pendingApprovals then Some(s.pendingApprovals[toolCallId]) else None;
      runs := runs[runId := s.(pendingApprovals := s.pendingApprovals - {toolCallId})];
    }

    method PopPendingClientTool(runId: string, toolCallId: string) returns (action: Option<PendingAction>)
      modifies this
      ensures (runs, action) == ClientToolPopped(old(runs), runId, toolCallId)
    {
      var state := Get(runId);
      if state.None? {
        return None;
      }
      var s := state.value;
      action := if toolCallId in s.pendingClientTools then Some(s.pendingClientTools[toolCallId]) else None;
      runs := runs[runId := s.(pendingClientTools := s.pendingClientTools - {toolCallId})];
    }

    method HasPending(runId: string) returns (pending: bool)
      ensures pending <==>
        (runId in runs && (runs[runId].pendingApprovals != map[] || runs[runId].pendingClientTools != map[]))
    {
      var state := Get(runId);
      if state.None? {
        return false;
      }
      pending := state.value.pendingApprovals != map[] || state.value.pendingClientTools != map[];
    }
  }
}
