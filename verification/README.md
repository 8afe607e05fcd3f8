# The approval-aware chat backend, modelled in Dafny

This project models the core of a chat service that puts an agent engine (Google ADK) behind a
streaming chat client (TanStack AI). It proves properties of that model. The service does four things:

- **Translation.** `TanStackAdkAdapter` runs the engine on a message. It turns each engine
  event into stream chunks: text deltas, tool calls, approval requests and tool results.
  While doing so it keeps a text accumulator and a tool-call counter.
- **Pending work.** `InMemoryRunStore` keeps, per run, the actions that wait on the user.
  These are tools that need approval and tools the client itself executes.
- **Continuation.** The client answers by posting a continuation. `ContinuationHub` keeps one
  FIFO queue of them per run. The chat stream takes them one by one while anything is pending.
  It then resumes the engine with the function responses, grouped by the invocation they
  belong to.
- **The client side.** `useChatSession` decides which tool calls still await a decision. It
  completes tool-call parts from the approval requests that were announced. It writes a
  decision into the messages.

## Layout

- `wrappers.dfy`, `json.dfy`: `Option` and JSON values.
- `ordered_map.dfy`: insertion-ordered dictionaries. Dictionary order matters for three things:
  `setdefault` grouping, payload items and `Object.values`.
- `models.dfy`: `PendingAction` and `RunState`.
- `run_store.dfy`: the run table as functions, plus the class `InMemoryRunStore`.
- `continuation.dfy`: the per-run queues and the class `ContinuationHub`.
- `tanstack_stream.dfy`: the chunk variants, their JSON form and their event-stream framing.
- `adk.dfy`: the engine's records, and the engine as the class `Runner`. `Runner` answers each
  invocation by a function of all earlier ones.
- `tanstack_to_adk.dfy`: user-text extraction and message building.
- `translation.dfy`: what the adapter does to one part, event and run, as functions of
  `(accumulator, counter, run table, engine history)`.
- `resume_plan.dfy`: `resume_from_continuation` as functions, in two steps. First the plan: the
  pops, the response log and the client-tool chunks. Then the engine runs per group.
- `adapter.dfy`: the class `TanStackAdkAdapter`. Its methods are proved equal to the functions
  of `translation.dfy` and `resume_plan.dfy`.
- `server.dfy`: the continuation endpoint and the chat stream, including its pending loop.
- `agent.dfy`: the XML layout of the prompt's few-shot examples.
- `chat_session.dfy`: the client hook's pure helpers and its approval-request map.

## Model

| member | source | states |
|---|---|---|
| Models.ActionKind.Literal | backend/src/backend/domain/models.py:12 | an action kind is exactly one of the two literals, "approval" iff `Approval` |
| Models.FreshRunState | backend/src/backend/domain/models.py:21-27 | a run state built from its two ids has no invocation id and two empty pending maps |
| Models.NewPendingAction | backend/src/backend/domain/models.py:10-18 | a pending action built without a confirmation id has none; every other field is as given |
| RunStore.Created | backend/src/backend/store/run_store.py:16-21 | after get_or_create the run exists; an existing run is untouched; a new one is fresh and keyed by its own id as run and session; no other run changes |
| RunStore.PendingIff | backend/src/backend/store/run_store.py:70-74 | a run has pending work iff some tool_call_id is pending in its approval map or its client-tool map |
| RunStore.CreatedIdempotent | backend/src/backend/store/run_store.py:16-21 | get_or_create twice equals get_or_create once |
| RunStore.ApprovalAddedTouchesOneEntry | backend/src/backend/store/run_store.py:30-32 | an added approval is found under its own tool_call_id, overwriting; every other (run, id) entry and the whole client-tool map are unchanged |
| RunStore.ClientToolAddedTouchesOneEntry | backend/src/backend/store/run_store.py:34-36 | the same for an added client tool |
| RunStore.ApprovalPopRemovesOnce | backend/src/backend/store/run_store.py:38-60 | a pop returns what a get returns and removes it, so a second pop returns nothing; other entries and the client-tool map are unchanged |
| RunStore.ClientToolPopRemovesOnce | backend/src/backend/store/run_store.py:46-68 | the same for client tools |
| RunStore.UnknownRunIsNotCreated | backend/src/backend/store/run_store.py:23-74 | on an unknown run, get, the two reads and the two pops return nothing, leave the table as it was, and the run has nothing pending |
| RunStore.InvocationSetChangesOnlyInvocation | backend/src/backend/store/run_store.py:26-28 | set_invocation_id creates the run if needed and changes only its invocation id; other runs are unchanged |
| RunStore.CreatedKeepsWellKeyed | backend/src/backend/store/run_store.py:16-21 | creating a run keeps every run keyed by its own id, with each action filed under its own tool_call_id and kind |
| RunStore.InvocationSetKeepsWellKeyed | backend/src/backend/store/run_store.py:26-28 | recording an invocation id keeps the table well keyed |
| RunStore.ApprovalAddedKeepsWellKeyed | backend/src/backend/store/run_store.py:30-32 | adding an approval action keeps the table well keyed |
| RunStore.ClientToolAddedKeepsWellKeyed | backend/src/backend/store/run_store.py:34-36 | adding a client-tool action keeps the table well keyed |
| RunStore.PoppedKeepsWellKeyed | backend/src/backend/store/run_store.py:54-68 | both pops keep the table well keyed |
| RunStore.PoppedActionMatches | backend/src/backend/store/run_store.py:54-68 | in a well-keyed table a popped action carries the id asked for and the popped map's kind |
| RunStore.InMemoryRunStore.constructor | backend/src/backend/store/run_store.py:13-14 | the store starts empty |
| RunStore.InMemoryRunStore.GetOrCreate | backend/src/backend/store/run_store.py:16-21 | the table becomes `Created(old table)` and the returned state is the run's entry |
| RunStore.InMemoryRunStore.Get | backend/src/backend/store/run_store.py:23-24 | returns the run's state iff the run exists |
| RunStore.InMemoryRunStore.SetInvocationId | backend/src/backend/store/run_store.py:26-28 | the table becomes `InvocationSet(old table)` |
| RunStore.InMemoryRunStore.AddPendingApproval | backend/src/backend/store/run_store.py:30-32 | the table becomes `ApprovalAdded(old table)` |
| RunStore.InMemoryRunStore.AddPendingClientTool | backend/src/backend/store/run_store.py:34-36 | the table becomes `ClientToolAdded(old table)` |
| RunStore.InMemoryRunStore.GetPendingApproval | backend/src/backend/store/run_store.py:38-44 | returns an action iff the run exists and has an approval under the id, and returns that approval |
| RunStore.InMemoryRunStore.GetPendingClientTool | backend/src/backend/store/run_store.py:46-52 | the same for client tools |
| RunStore.InMemoryRunStore.PopPendingApproval | backend/src/backend/store/run_store.py:54-60 | the table and the result are `ApprovalPopped(old table)` |
| RunStore.InMemoryRunStore.PopPendingClientTool | backend/src/backend/store/run_store.py:62-68 | the table and the result are `ClientToolPopped(old table)` |
| RunStore.InMemoryRunStore.HasPending | backend/src/backend/store/run_store.py:70-74 | true iff the run exists and one of its pending maps is non-empty |
| Continuation.Pushed | backend/src/backend/continuation.py:20-22 | push appends the payload to its run's queue and leaves every other queue as it was |
| Continuation.Taken | backend/src/backend/continuation.py:16-18 | wait returns the head of its run's queue; the rest stays queued in order; other queues are unchanged |
| Continuation.ReplayCallIsFifo | backend/src/backend/continuation.py:16-22 | one hub call adds to a run's delivered-plus-queued payloads exactly what it pushes there |
| Continuation.ReplayIsFifo | backend/src/backend/continuation.py:10-22 | over any sequence of pushes and waits, per run id, the delivered payloads followed by the still-queued ones equal the initial queue followed by the pushed payloads in push order: FIFO, no loss, no cross-talk |
| Continuation.ContinuationHub.constructor | backend/src/backend/continuation.py:11-14 | the hub starts with no queues |
| Continuation.ContinuationHub.Push | backend/src/backend/continuation.py:20-22 | the queues become `Pushed(old queues)` |
| Continuation.ContinuationHub.Wait | backend/src/backend/continuation.py:16-18 | on a non-empty queue, the queues and the result are `Taken(old queues)` |
| TanstackStream.TypeTagIdentifiesVariant | backend/src/backend/adapters/tanstack_stream.py:110-119 | two chunks have the same `type` tag iff they are the same variant, so the union is discriminated by its tag |
| TanstackStream.ChunkJson | backend/src/backend/adapters/tanstack_stream.py:25-107 | the dump carries the variant's tag, id, model and timestamp; a tool call's `type` is "function"; an approval has `needsApproval: true`; a missing error code or usage is null; finishReason is its literal |
| TanstackStream.Frame | backend/src/backend/adapters/tanstack_stream.py:126-132 | a record is "data: ", the payload and a blank line |
| TanstackStream.FrameRoundTrip | backend/src/backend/adapters/tanstack_stream.py:126-132 | unframing a record gives back exactly its payload |
| TanstackStream.EncodeChunk | backend/src/backend/adapters/tanstack_stream.py:126-128 | the record of a chunk unframes to the serialized dump of that chunk |
| TanstackStream.EncodeDone | backend/src/backend/adapters/tanstack_stream.py:131-132 | the closing record is "data: [DONE]" and unframes to "[DONE]" |
| TanstackStream.EncodeAll | backend/src/backend/main.py:123-129 | a stream of chunks becomes one record per chunk, in order |
| Adk.Runner.constructor | backend/src/backend/adapters/adk_to_tanstack.py:162-167 | the engine starts with no invocations |
| Adk.Runner.RunAsync | backend/src/backend/adapters/adk_to_tanstack.py:162-167 | the engine records the invocation and answers by its function of the earlier history |
| TanstackToAdk.LeadingSpaces | backend/src/backend/adapters/tanstack_to_adk.py:17 | the count of leading whitespace: all of it is whitespace and the next character is not |
| TanstackToAdk.TrailingSpaces | backend/src/backend/adapters/tanstack_to_adk.py:17 | the count of trailing whitespace, likewise |
| TanstackToAdk.StripBounds | backend/src/backend/adapters/tanstack_to_adk.py:17-25 | the cut points of strip: only whitespace lies outside them, and what lies inside neither starts nor ends with whitespace |
| TanstackToAdk.Strip | backend/src/backend/adapters/tanstack_to_adk.py:17-25 | strip is empty iff the text is all whitespace; otherwise it starts and ends with non-whitespace |
| TanstackToAdk.StripIdempotent | backend/src/backend/adapters/tanstack_to_adk.py:17-25 | stripping twice is stripping once |
| TanstackToAdk.MessageText | backend/src/backend/adapters/tanstack_to_adk.py:13-26 | a message offers text only when it is a user message with string or list content, and what it offers is already stripped |
| TanstackToAdk.NonEmpty | backend/src/backend/adapters/tanstack_to_adk.py:18-26 | `text or None`: some iff the text is non-empty, and then the text itself |
| TanstackToAdk.LatestUserText | backend/src/backend/adapters/tanstack_to_adk.py:10-27 | the extracted text is never empty and is stripped |
| TanstackToAdk.LatestUserTextIsLastOffered | backend/src/backend/adapters/tanstack_to_adk.py:12-26 | the scan answers with the last message that offers text, even when that text strips to empty (then None) |
| TanstackToAdk.LatestUserTextNone | backend/src/backend/adapters/tanstack_to_adk.py:27 | with no message offering text there is no user text |
| TanstackToAdk.ExtractUserText | backend/src/backend/adapters/tanstack_to_adk.py:10-27 | the backward loop returns `LatestUserText` of the messages |
| TanstackToAdk.BuildUserContent | backend/src/backend/adapters/tanstack_to_adk.py:30-31 | one user message with one part that carries the text and nothing else |
| TanstackToAdk.BuildFunctionResponseContent | backend/src/backend/adapters/tanstack_to_adk.py:34-38 | one user message with one part per response, in order, each carrying only its response |
| TanstackToAdk.BuildFunctionResponseContentRoundTrip | backend/src/backend/adapters/tanstack_to_adk.py:34-38 | the responses are read back from the message unchanged and in order |
| Translation.TextDelta | backend/src/backend/adapters/adk_to_tanstack.py:187-196 | a final text that extends the accumulator contributes exactly its extension (acc + delta == text); a streaming fragment or a non-extending text contributes itself |
| Translation.TextStep | backend/src/backend/adapters/adk_to_tanstack.py:187-204 | a text part changes only the accumulator, by its delta, and emits one assistant content chunk whose content is the new accumulator; a final text that extends the accumulator leaves it equal to that text |
| Translation.ToolCallId | backend/src/backend/adapters/adk_to_tanstack.py:226 | the engine's id when non-empty, else "tool_" and a fresh uuid |
| Translation.PlainCallStep | backend/src/backend/adapters/adk_to_tanstack.py:226-254 | an ordinary call emits one tool-call chunk numbered by the counter, which moves on by one; its id, name and serialized arguments; a client tool is registered as pending under that id, any other tool leaves the table alone |
| Translation.NonEmptyStr | backend/src/backend/adapters/adk_to_tanstack.py:265 | a value counts as an id or a name iff it is a non-empty string |
| Translation.ConfirmationStep | backend/src/backend/adapters/adk_to_tanstack.py:256-288 | a confirmation request without a non-empty original id and name does nothing; otherwise it files a pending approval with the confirmation's id and invocation, and emits one approval request whose approval id is the tool_call_id; only the table changes |
| Translation.ExtractToolResultContent | backend/src/backend/adapters/adk_to_tanstack.py:314-329 | none iff there is no response; else the first of output, result and response present, or the whole response, as text |
| Translation.ResponseChunks | backend/src/backend/adapters/adk_to_tanstack.py:290-312 | one tool-result chunk exactly when the response is neither confirmation traffic nor empty, carrying the response id and the extracted content |
| Translation.Chain | backend/src/backend/adapters/adk_to_tanstack.py:186-216 | two sound steps in a row are a sound step |
| Translation.CallStepSound | backend/src/backend/adapters/adk_to_tanstack.py:218-288 | a function call leaves the engine alone, numbers its tool-call chunk with the counter value it consumes, and keeps the table well keyed |
| Translation.EmptyTextEmitsNothing | backend/src/backend/adapters/adk_to_tanstack.py:186-187 | a part whose text is missing or empty emits nothing for its text and steps exactly as the same part without text |
| Translation.PartStepSound | backend/src/backend/adapters/adk_to_tanstack.py:186-216 | one part (text, then call, then response) is a sound step |
| Translation.PartsStepSound | backend/src/backend/adapters/adk_to_tanstack.py:186-216 | the parts of an event in order are a sound step |
| Translation.EventStepSound | backend/src/backend/adapters/adk_to_tanstack.py:178-216 | an event, including the recording of its invocation id, is a sound step |
| Translation.EventsStepSound | backend/src/backend/adapters/adk_to_tanstack.py:162-169 | the events of a run are a sound step: chunks numbered consecutively from the counter, only translated chunks, the table kept well keyed |
| Translation.RunStepSound | backend/src/backend/adapters/adk_to_tanstack.py:161-176 | a run emits translated chunks only, except that an exception adds one error chunk with its message after all the others |
| Translation.RunContentSound | backend/src/backend/adapters/adk_to_tanstack.py:153-176 | running content sends the engine exactly one invocation, on the run's session, with the given invocation id |
| Translation.RunFromUserTextSound | backend/src/backend/adapters/adk_to_tanstack.py:52-57 | a user text becomes one new invocation carrying that text |
| Translation.ClientToolAwaitsApprovalAndResult | backend/src/backend/adapters/adk_to_tanstack.py:229-278 | an export_csv call followed by its confirmation request leaves the tool pending twice under one tool_call_id: as a client tool and as an approval with the confirmation id |
| Translation.TextEventStep | backend/src/backend/adapters/adk_to_tanstack.py:186-204 | a one-text event adds its delta to the accumulator and emits that text step's one chunk |
| Translation.EventsStepSnoc | backend/src/backend/adapters/adk_to_tanstack.py:168 | translating one more event continues from the state the earlier events left |
| Translation.StreamedTextStep | backend/src/backend/adapters/adk_to_tanstack.py:195-196 | one more streaming fragment appends itself to the accumulator |
| Translation.StreamedTextsAccumulate | backend/src/backend/adapters/adk_to_tanstack.py:195-196 | streaming fragments accumulate to their concatenation |
| Translation.FinalTextAfterStreaming | backend/src/backend/adapters/adk_to_tanstack.py:189-192 | a final text repeating the streamed fragments emits an empty delta and leaves the accumulator equal to the full text |
| Translation.SecondStreamedSegmentCountedTwice | backend/src/backend/adapters/adk_to_tanstack.py:189-196 | after an earlier segment, a streamed fragment followed by its final text is appended twice |
| Translation.Range | backend/src/backend/adapters/adk_to_tanstack.py:334-337 | the values lo, lo+1, …, hi-1 the counter passes |
| Translation.ToolCallIndicesAppend | backend/src/backend/adapters/adk_to_tanstack.py:246 | the tool-call indices of two chunk sequences in a row are those of the first, then those of the second |
| ResumePlan.ConfirmationResponse | backend/src/backend/adapters/adk_to_tanstack.py:77-81 | the answer to a confirmation carries its id, the confirmation function name and `confirmed` as the truth value of the decision |
| ResumePlan.Unwrap | backend/src/backend/adapters/adk_to_tanstack.py:107-109 | an object with "output" gives that output; anything else is taken whole |
| ResumePlan.DriveStep | backend/src/backend/adapters/adk_to_tanstack.py:122-134 | running the groups up to k+1 is running them up to k, then group k |
| ResumePlan.InvocationsFor | backend/src/backend/adapters/adk_to_tanstack.py:122-134 | one invocation per group |
| ResumePlan.UnknownApprovalIgnored | backend/src/backend/adapters/adk_to_tanstack.py:71-73 | an approval for an id that is not pending changes nothing |
| ResumePlan.ApprovalWithoutConfirmationId | backend/src/backend/adapters/adk_to_tanstack.py:74-76 | an approval whose action has no confirmation id is consumed; nothing is sent; a client tool of the same id stays pending |
| ResumePlan.ApprovalDecided | backend/src/backend/adapters/adk_to_tanstack.py:70-101 | a decided approval is consumed and answers the confirmation under the action's invocation; an approved client tool is handed to the client and stays pending as a client tool; a denied one is dropped from the client-tool map; any other tool is only answered |
| ResumePlan.UnknownToolResultIgnored | backend/src/backend/adapters/adk_to_tanstack.py:104-106 | a result for an id that is not a pending client tool changes nothing |
| ResumePlan.ToolResultForwarded | backend/src/backend/adapters/adk_to_tanstack.py:103-117 | a result for a pending client tool consumes it and logs its unwrapped output under the invocation that called it, with the tool's name |
| ResumePlan.ToolResultRoundTrip | backend/src/backend/adapters/adk_to_tanstack.py:290-312 | a forwarded result reported back by the engine is shown under the same tool_call_id with the unwrapped output as text; a confirmation answer is never shown |
| ResumePlan.ApprovalStepKeeps | backend/src/backend/adapters/adk_to_tanstack.py:70-101 | one approval keeps the table well keyed and dispatches only client tools stamped with the run |
| ResumePlan.ToolResultStepKeeps | backend/src/backend/adapters/adk_to_tanstack.py:103-117 | one tool result keeps the table well keyed |
| ResumePlan.ApprovalsPlanKeeps | backend/src/backend/adapters/adk_to_tanstack.py:70-101 | all approvals in order keep both |
| ResumePlan.ToolResultsPlanKeeps | backend/src/backend/adapters/adk_to_tanstack.py:103-117 | all tool results in order keep both |
| ResumePlan.DriveSound | backend/src/backend/adapters/adk_to_tanstack.py:122-134 | the engine receives exactly one invocation per group, in order, each carrying its group's responses; numbering stays consecutive; the table stays well keyed |
| ResumePlan.ResumeSound | backend/src/backend/adapters/adk_to_tanstack.py:59-134 | a continuation first emits the client-tool chunks, then resumes the engine once per group, approvals before tool results; the table stays well keyed and tool calls stay numbered consecutively |
| ResumePlan.GroupsAreComplete | backend/src/backend/adapters/adk_to_tanstack.py:82-117 | each group names a distinct invocation within its phase and holds exactly the responses decided for it, in decision order |
| OrderedMap.GroupByKeys | backend/src/backend/adapters/adk_to_tanstack.py:82-84 | setdefault grouping has distinct keys, in order of first use |
| OrderedMap.GroupByGet | backend/src/backend/adapters/adk_to_tanstack.py:82-84 | a key's group holds all of its values in log order, and is absent iff it has none |
| Adapter.TanStackAdkAdapter.constructor | backend/src/backend/adapters/adk_to_tanstack.py:35-50 | a fresh adapter has an empty accumulator and the counter at 0 |
| Adapter.TanStackAdkAdapter.NextToolCallIndex | backend/src/backend/adapters/adk_to_tanstack.py:334-337 | returns the counter's value and moves it on by one |
| Adapter.TanStackAdkAdapter.HandleConfirmationCall | backend/src/backend/adapters/adk_to_tanstack.py:256-288 | the new state and the chunks are `ConfirmationStep` of the old state |
| Adapter.TanStackAdkAdapter.HandleFunctionCall | backend/src/backend/adapters/adk_to_tanstack.py:218-254 | the new state and the chunks are `CallStep` of the old state |
| Adapter.TanStackAdkAdapter.HandleFunctionResponse | backend/src/backend/adapters/adk_to_tanstack.py:290-312 | at most one chunk, present iff the response is shown, equal to `ResponseChunks` |
| Adapter.TanStackAdkAdapter.HandleText | backend/src/backend/adapters/adk_to_tanstack.py:187-204 | the new state and the chunks are `TextStep` of the old state |
| Adapter.TanStackAdkAdapter.HandlePart | backend/src/backend/adapters/adk_to_tanstack.py:186-216 | the new state and the chunks are `PartStep` of the old state |
| Adapter.TanStackAdkAdapter.EventToChunks | backend/src/backend/adapters/adk_to_tanstack.py:178-216 | the new state and the chunks are `EventStep` of the old state |
| Adapter.TanStackAdkAdapter.RunWithContent | backend/src/backend/adapters/adk_to_tanstack.py:153-176 | the new state and the chunks are `RunContent` of the old state |
| Adapter.TanStackAdkAdapter.RunFromUserText | backend/src/backend/adapters/adk_to_tanstack.py:52-57 | the new state and the chunks are `RunFromUserText` of the old state |
| Adapter.TanStackAdkAdapter.DecideApproval | backend/src/backend/adapters/adk_to_tanstack.py:70-101 | one approval item changes the store and yields the log entry and dispatch as `ApprovalStep` says |
| Adapter.TanStackAdkAdapter.AcceptToolResult | backend/src/backend/adapters/adk_to_tanstack.py:103-117 | one tool-result item changes the store and yields the log entry as `ToolResultStep` says |
| Adapter.TanStackAdkAdapter.DecideApprovals | backend/src/backend/adapters/adk_to_tanstack.py:70-101 | the approval loop ends in `ApprovalsPlan`, and its dictionary of groups is the grouping of the log |
| Adapter.TanStackAdkAdapter.AcceptToolResults | backend/src/backend/adapters/adk_to_tanstack.py:103-117 | the tool-result loop ends in `ToolResultsPlan`, and its groups are the grouping of the log |
| Adapter.TanStackAdkAdapter.RunGroups | backend/src/backend/adapters/adk_to_tanstack.py:122-134 | the two group loops leave the state and chunks that `Drive` gives for the approval groups followed by the tool groups |
| Adapter.TanStackAdkAdapter.ResumeFromContinuation | backend/src/backend/adapters/adk_to_tanstack.py:59-134 | the new state and the chunks are `Resume` of the old state |
| Adapter.TanStackAdkAdapter.HasPending | backend/src/backend/adapters/adk_to_tanstack.py:136-137 | true iff the store has pending work for the adapter's run |
| Server.Accept | backend/src/backend/main.py:63-70 | a payload without a non-empty run id gets 400 "Missing run_id" and queues nothing; any other is appended to its run's queue alone and gets 200 {"status": "ok"} |
| Server.PostContinuation | backend/src/backend/main.py:63-70 | the hub's queues and the reply are those of `Accept` |
| Server.ChooseRunId | backend/src/backend/main.py:83-85 | the body's run_id if non-empty, else data.run_id if non-empty, else the fresh hex id |
| Server.Closing | backend/src/backend/main.py:131-139 | a finished stream closes with two records: a done chunk with finish reason stop, then the sentinel |
| Server.ContinueSound | backend/src/backend/main.py:126-129 | the pending loop takes continuations in queue order and stops early only once nothing is pending; chunks are numbered on from the counter; the store stays well keyed |
| Server.SessionSound | backend/src/backend/main.py:103-129 | over a whole stream from a fresh adapter, the tool-call chunks carry indices 0, 1, 2, … in emission order, and a stream that stops before the queue is used up has nothing pending |
| Server.ReachedStep | backend/src/backend/main.py:126-129 | one more iteration of the pending loop stays on the course `Continue` describes |
| Server.ReachedEnd | backend/src/backend/main.py:126-129 | where the loop stops it has done what `Continue` says |
| Server.PendingLoop | backend/src/backend/main.py:126-129 | the loop's chunks and state are `Continue` over the run's queue; it consumes exactly that many queued payloads; it reports whether work is still pending; other queues are untouched |
| Server.Serve | backend/src/backend/main.py:123-129 | the run on a user text followed by the pending loop is `Session` on that text: chunks and state, the consumed prefix of the run's queue, whether work is still pending; other queues are untouched |
| Server.Chat | backend/src/backend/main.py:73-139 | the chosen run id; the store, the engine history and the chunks are `Session`; the run's queue loses exactly the consumed prefix; other queues are untouched; the stream is finished iff there was no text or nothing is pending, and only then closes with the done records |
| Agent.ExampleLines | backend/src/backend/agent.py:24-27 | four lines per example |
| Agent.Body | backend/src/backend/agent.py:23-27 | four lines per example, in order, each tag line with the example's text inserted verbatim |
| Agent.XmlLines | backend/src/backend/agent.py:22-28 | 2 + 4n lines: the opening tag, each example's four lines, the closing tag |
| Agent.Split | backend/src/backend/agent.py:29 | splitting always gives at least one piece |
| Agent.FormatAsXml | backend/src/backend/agent.py:21-29 | the loop's output is the newline join of `XmlLines` |
| Agent.SplitAfterLine | backend/src/backend/agent.py:29 | a line without newlines at the head of a text becomes the head of the first piece |
| Agent.SplitJoin | backend/src/backend/agent.py:29 | joining lines without newlines and splitting gives the lines back |
| Agent.TagLine | backend/src/backend/agent.py:25-26 | a tag line holds no newline when its text holds none |
| Agent.BodyHasNoNewline | backend/src/backend/agent.py:23-27 | no body line holds a newline when no request or response does |
| Agent.LineCount | backend/src/backend/agent.py:21-29 | when no request or response holds a newline, the output reads back as exactly the 2 + 4n lines of the layout |
| Agent.NoExamples | backend/src/backend/agent.py:21-29 | with no examples the output is the two tags on two lines, with no trailing newline |
| ChatSession.ScanResults | frontend/src/features/chat/hooks/useChatSession.ts:17-23 | the nested loops collect exactly the tool_call_ids of all tool-result parts |
| ChatSession.ScanParts | frontend/src/features/chat/hooks/useChatSession.ts:26-49 | scanning one message's parts extends the reports, pending ids and resolved ids of the parts seen so far by exactly those of the new parts |
| ChatSession.ScanToolCalls | frontend/src/features/chat/hooks/useChatSession.ts:25-50 | the nested loops produce the reports of the awaiting parts in order, their ids and the resolved ids |
| ChatSession.CollectPendingApprovals | frontend/src/features/chat/hooks/useChatSession.ts:8-60 | the result is `PendingApprovals`: the reports, then the unclaimed announced requests |
| ChatSession.ReportsAreTheAwaitingParts | frontend/src/features/chat/hooks/useChatSession.ts:25-50 | a report is produced iff some part needs approval, is undecided and has no result, and it carries that part's info; the same for the reported ids |
| ChatSession.ResolvedAreNeverReported | frontend/src/features/chat/hooks/useChatSession.ts:31-38 | nothing reported from a part has a tool result |
| ChatSession.LeftoversAreUnclaimed | frontend/src/features/chat/hooks/useChatSession.ts:52-57 | an announced request is kept iff it was not reported, not resolved and has no result |
| ChatSession.PendingApprovalsAreUnresolved | frontend/src/features/chat/hooks/useChatSession.ts:8-60 | nothing returned has a tool result; a returned request that did not come from a part was neither reported nor resolved |
| ChatSession.NormalizeParts | frontend/src/features/chat/hooks/useChatSession.ts:80-109 | every part normalized, in place, with the length kept |
| ChatSession.NormalizeToolCallParts | frontend/src/features/chat/hooks/useChatSession.ts:62-117 | each message is normalized; `changed` is true iff some message was rewritten; when false the messages come back as they were |
| ChatSession.SameResultIds | frontend/src/features/chat/hooks/useChatSession.ts:72-77 | parts that agree on their tool results have the same result ids |
| ChatSession.NormalizePartIdempotent | frontend/src/features/chat/hooks/useChatSession.ts:83-102 | normalizing a part twice is normalizing it once |
| ChatSession.NormalizeIdempotent | frontend/src/features/chat/hooks/useChatSession.ts:69-114 | a second normalization pass changes nothing and reports no change |
| ChatSession.NormalizePartEffect | frontend/src/features/chat/hooks/useChatSession.ts:81-102 | an announced request becomes the approval with state approval-requested; otherwise a result in the same message sets output true; a part with an approval, or that is not a tool call, is untouched; the id never changes |
| ChatSession.OnlyAssistantMessagesChange | frontend/src/features/chat/hooks/useChatSession.ts:70-113 | a non-assistant message is never rewritten, and a message is reported changed iff it was |
| ChatSession.FirstAnswering | frontend/src/features/chat/hooks/useChatSession.ts:126-128 | find returns the least index whose tool call has the approval id, or none when no part has it |
| ChatSession.RespondMessage | frontend/src/features/chat/hooks/useChatSession.ts:124-134 | the message keeps its id, role and length, and every part but the found one |
| ChatSession.ApplyApprovalResponse | frontend/src/features/chat/hooks/useChatSession.ts:119-135 | every message becomes its `RespondMessage` |
| ChatSession.RespondedPartIsDecided | frontend/src/features/chat/hooks/useChatSession.ts:129-132 | the found part carries the decision, state approval-responded and the same id, so it no longer awaits; a message without it is unchanged |
| ChatSession.RecordApprovalRequest | frontend/src/features/chat/hooks/useChatSession.ts:167-178 | the request is stored under its tool_call_id with the approval id (defaulting to the tool_call_id) and the chunk's run id; other keys are unchanged; keys stay distinct |
| ChatSession.ClearApprovalRequest | frontend/src/features/chat/hooks/useChatSession.ts:249-256 | an absent key returns the map as it was; otherwise the key is gone and the other keys are unchanged; keys stay distinct |
| ChatSession.RecordThenClear | frontend/src/features/chat/hooks/useChatSession.ts:249-256 | clearing a request just recorded under a new key restores the map, order included |

## Left out

- I/O and time:
  - Encoding records as UTF-8 bytes is not modelled.
  - The SSE headers and the HTTP framework plumbing are not modelled.
  - JSON text is not modelled. `json.dumps` is the parameter `dumps`, and `json.loads` of the body is taken as already done.
- Clock:
  - `now_ms()` is one `now` per adapter call, shared by all chunks of that call.
  - `Server.Chat` uses one `now` for a whole request.
- Fresh ids:
  - `uuid4().hex` for the run id is the parameter `freshHex`.
  - The uuid drawn for a call without an id is `uuidHex(counter)`. The draw always coincides with a counter increment.
- Concurrency:
  - `await queue.get()` blocks until a continuation arrives. `ContinuationHub.Wait` requires a non-empty queue instead.
  - `Server.Chat` takes only what is already queued. When work is still pending and the queue is empty, it returns `finished = false`: the stream is still waiting for the client.
  - Interleaving between requests is not modelled.
- The engine:
  - The engine is a deterministic function `respond` of its invocation history.
  - Sessions (`_ensure_session`) and the engine's internals are not modelled.
  - An exception raised inside translation itself (not inside the engine) is not modelled; only an engine failure that ends a run becomes the error chunk.
- Dynamic typing:
  - An id, a name or a run id that is truthy but not a string is treated as absent.
  - A truthy `originalFunctionCall` that is not an object is treated as `{}`. The source would raise there, and the adapter would emit an error chunk.
  - Non-dictionary messages, bodies or `data` fields are not modelled; the source crashes on them. Part contents that are not strings are not modelled either.
  - An example without a `request` or `response` key is not modelled; the source raises `KeyError`.
- ResumePlan.Resume: a continuation whose `approvals` or `tool_results` is truthy but not an object is not modelled, because `Payload` holds only item sequences. The source raises at `.items()` there, outside the error wrapping of a run, so the stream ends without its done chunk and the payload is already gone from the queue. The same holds for `Adapter.TanStackAdkAdapter.ResumeFromContinuation`.
- Records:
  - `PendingAction.created_at` is never read and is not modelled.
  - The `new_message is None` guard of `_run_with_content` is not modelled, because no caller passes `None`.
  - `partial` is a bool: `None` reads as false, as the source's test does.
  - Numbers are integers; floats are not modelled.
- Frontend:
  - `parseToolArguments` is the parameter `parse`.
  - React state, effects and the connection are not modelled. Neither are the chunk run-id tracking and the `tool-input-available` handling of `handleChunk`.
  - `Object.values` is insertion order; the reordering of integer-like keys is not modelled.
- ChatSession.ApplyApprovalResponse:
  - The model returns new values. It does not model that the source mutates the shared part object, which the old message array also references.
  - Object identity in `normalizeToolCallParts` is value equality. Every rewrite changes a field, so the two agree.
- The tools behind the engine (SQL, CSV export, previews), the CSV endpoint and the prompt text other than the examples are not part of this model.
