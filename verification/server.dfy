/**
 * The two endpoints of the service: `POST /api/continuation`, which queues a client's
 * decisions for a run, and the stream of `POST /api/chat`, which runs the engine on the
 * latest user text and then applies queued continuations for as long as anything is pending.
 */
module Server {
  import opened Wrappers
  import opened Json
  import opened RunStore
  import opened Adk
  import opened TanstackStream
  import opened TanstackToAdk
  import opened Translation
  import opened ResumePlan
  import opened Continuation
  import opened Adapter

  /** An HTTP reply: its status and its JSON body. */
  datatype Reply = Reply(status: int, body: Value)

  /** `continuation`: a payload without a run id is refused with 400; any other is queued under its run id. */
  function Accept(qs: Queues, payload: Payload): (r: (Queues, Reply))
    ensures payload.runId.None? || payload.runId.value == "" ==>
      r.0 == qs && r.1 == Reply(400, Obj(map["detail" := Str("Missing run_id")]))
    ensures payload.runId.Some? && payload.runId.value != "" ==>
      && Queue(r.0, payload.runId.value) == Queue(qs, payload.runId.value) + [payload]
      && (forall other :: other != payload.runId.value ==> Queue(r.0, other) == Queue(qs, other))
      && r.1 == Reply(200, Obj(map["status" := Str("ok")]))
  {
    if payload.runId.None? || payload.runId.value == "" then (qs, Reply(400, Obj(map["detail" := Str("Missing run_id")])))
    else (Pushed(qs, payload.runId.value, payload), Reply(200, Obj(map["status" := Str("ok")])))
  }

  method PostContinuation(hub: ContinuationHub, payload: Payload) returns (reply: Reply)
    modifies hub
    ensures (hub.queues, reply) == Accept(old(hub.queues), payload)
  {
    if payload.runId.None? || payload.runId.value == "" {
      return Reply(400, Obj(map["detail" := Str("Missing run_id")]));
    }
    hub.Push(payload.runId.value, payload);
    reply := Reply(200, Obj(map["status" := Str("ok")]));
  }

  /** The fields of a `/api/chat` body the stream reads; an empty or undecodable body counts as `{}`. */
  datatype ChatBody = ChatBody(runId: Option<string>, dataRunId: Option<string>, messages: seq<Message>)

  const EmptyBody := ChatBody(None, None, [])

  /** The body's `run_id` if non-empty, else its `data.run_id` if non-empty, else a fresh hex id. */
  function ChooseRunId(body: ChatBody, freshHex: string): (r: string)
    ensures body.runId.Some? && body.runId.value != "" ==> r == body.runId.value
    ensures !(body.runId.Some? && body.runId.value != "") && body.dataRunId.Some? && body.dataRunId.value != "" ==>
      r == body.dataRunId.value
    ensures !(body.runId.Some? && body.runId.value != "") && !(body.dataRunId.Some? && body.dataRunId.value != "") ==>
      r == freshHex
    ensures r == "" ==> freshHex == ""
    ensures r != freshHex ==> r == body.runId.GetOr("") || r == body.dataRunId.GetOr("")
  {
    if body.runId.Some? && body.runId.value != "" then body.runId.value
    else if body.dataRunId.Some? && body.dataRunId.value != "" then body.dataRunId.value
    else freshHex
  }

  /** What the pending loop has done: its output and how many continuations it consumed. */
  datatype Served = Served(out: Out, resumed: nat)

  /**
   * The `while adapter.has_pending()` loop over the continuations queued for the run: while
   * anything is pending, take the next one and resume with it. An empty queue while work is
   * pending is where the stream waits for the client.
   */
  function Continue(ctx: Ctx, st: State, queue: seq<Payload>): Served
    decreases |queue|
  {
    if !Pending(st.runs, ctx.runId) || queue == [] then Served(Out(st, []), 0)
    else
      var o := Resume(ctx, st, queue[0]);
      var rest := Continue(ctx, o.st, queue[1..]);
      Served(Then(o, rest.out), rest.resumed + 1)
  }

  /** The chunks of the stream: none without user text, else the first run followed by the pending loop. */
  function Session(ctx: Ctx, st: State, text: Option<string>, queue: seq<Payload>): Served {
    if text.None? then Served(Out(st, []), 0)
    else
      var o := RunFromUserText(ctx, st, text.value);
      var c := Continue(ctx, o.st, queue);
      Served(Then(o, c.out), c.resumed)
  }

  /** The records that close a finished stream: a done chunk with finish reason "stop", then the sentinel. */
  function Closing(ctx: Ctx): (frames: seq<string>)
    ensures |frames| == 2 && frames[1] == "data: [DONE]\n\n"
    ensures Unframe(frames[0]) == Some(ctx.dumps(ChunkJson(DoneChunk(ctx.runId, ctx.model, ctx.now, Stop, None))))
  {
    [EncodeChunk(ctx.dumps, DoneChunk(ctx.runId, ctx.model, ctx.now, Stop, None)), EncodeDone()]
  }

  /**
   * The pending loop consumes continuations in queue order and stops early only once nothing
   * is pending; the tool-call chunks it emits are numbered on from the counter, and the store
   * stays well keyed.
   */
  lemma {:induction false} ContinueSound(ctx: Ctx, st: State, queue: seq<Payload>)
    ensures var s := Continue(ctx, st, queue);
      && s.resumed <= |queue|
      && (s.resumed < |queue| ==> !Pending(s.out.st.runs, ctx.runId))
      && (Pending(s.out.st.runs, ctx.runId) ==> s.resumed == |queue|)
      && st.index <= s.out.st.index && ToolCallIndices(s.out.chunks) == Range(st.index, s.out.st.index)
      && (WellKeyed(st.runs) ==> WellKeyed(s.out.st.runs))
    decreases |queue|
  {
    if Pending(st.runs, ctx.runId) && queue != [] {
      var o := Resume(ctx, st, queue[0]);
      ResumeSound(ctx, st, queue[0]);
      ContinueSound(ctx, o.st, queue[1..]);
      var rest := Continue(ctx, o.st, queue[1..]);
      ToolCallIndicesAppend(o.chunks, rest.out.chunks);
      RangeAppend(st.index, o.st.index, rest.out.st.index);
    }
  }

  /**
   * Over a whole stream from a fresh adapter, the tool-call chunks carry the indices 0, 1, 2, …
   * in emission order, and a stream that stops before the queue is used up has nothing pending.
   */
  lemma SessionSound(ctx: Ctx, st: State, text: string, queue: seq<Payload>)
    requires st.index == 0
    ensures var s := Session(ctx, st, Some(text), queue);
      && ToolCallIndices(s.out.chunks) == Range(0, s.out.st.index)
      && s.resumed <= |queue|
      && (Pending(s.out.st.runs, ctx.runId) ==> s.resumed == |queue|)
      && (WellKeyed(st.runs) ==> WellKeyed(s.out.st.runs))
  {
    var o := RunFromUserText(ctx, st, text);
    RunFromUserTextSound(ctx, st, text);
    ContinueSound(ctx, o.st, queue);
    var c := Continue(ctx, o.st, queue);
    ToolCallIndicesAppend(o.chunks, c.out.chunks);
    RangeAppend(0, o.st.index, c.out.st.index);
  }

  /** How far the pending loop has got: `chunks` emitted and `resumed` continuations taken, reaching `st` with `queue` left. */
  predicate Reached(ctx: Ctx, st0: State, q0: seq<Payload>, st: State, queue: seq<Payload>, chunks: seq<StreamChunk>, resumed: nat) {
    var c := Continue(ctx, st, queue);
    Continue(ctx, st0, q0) == Served(Out(c.out.st, chunks + c.out.chunks), resumed + c.resumed)
  }

  /** One more iteration keeps the loop on course. */
  lemma ReachedStep(ctx: Ctx, st0: State, q0: seq<Payload>, st: State, queue: seq<Payload>, chunks: seq<StreamChunk>, resumed: nat)
    requires Reached(ctx, st0, q0, st, queue, chunks, resumed)
    requires Pending(st.runs, ctx.runId) && queue != []
    ensures var o := Resume(ctx, st, queue[0]);
      Reached(ctx, st0, q0, o.st, queue[1..], chunks + o.chunks, resumed + 1)
  {
    var o := Resume(ctx, st, queue[0]);
    var rest := Continue(ctx, o.st, queue[1..]);
    assert chunks + (o.chunks + rest.out.chunks) == chunks + o.chunks + rest.out.chunks;
  }

  /** Where the loop stops, it has done what `Continue` says. */
  lemma ReachedEnd(ctx: Ctx, st0: State, q0: seq<Payload>, st: State, queue: seq<Payload>, chunks: seq<StreamChunk>, resumed: nat)
    requires Reached(ctx, st0, q0, st, queue, chunks, resumed)
    requires !Pending(st.runs, ctx.runId) || queue == []
    ensures Continue(ctx, st0, q0) == Served(Out(st, chunks), resumed)
  {
    assert chunks + [] == chunks;
  }

  /**
   * The `while adapter.has_pending()` loop of `chat`, with `wait` taking the next queued
   * continuation; it stops when nothing is pending or the queue is empty.
   */
  method PendingLoop(adapter: TanStackAdkAdapter, hub: ContinuationHub, now: int)
    returns (chunks: seq<StreamChunk>, pending: bool, ghost resumed: nat)
    modifies adapter, adapter.runStore, adapter.runner, hub
    ensures var c := Continue(adapter.CtxAt(now), old(adapter.Snapshot()), Queue(old(hub.queues), adapter.runId));
      && Out(adapter.Snapshot(), chunks) == c.out && resumed == c.resumed
      && resumed <= |Queue(old(hub.queues), adapter.runId)|
      && Queue(hub.queues, adapter.runId) == Queue(old(hub.queues), adapter.runId)[resumed..]
      && pending == Pending(adapter.runStore.runs, adapter.runId)
    ensures forall other :: other != adapter.runId ==> Queue(hub.queues, other) == Queue(old(hub.queues), other)
  {
    var runId := adapter.runId;
    ghost var ctx := adapter.CtxAt(now);
    ghost var st0 := adapter.Snapshot();
    ghost var q0 := Queue(hub.queues, runId);
    chunks := [];
    resumed := 0;
    pending := adapter.HasPending();
    assert [] + Continue(ctx, st0, q0).out.chunks == Continue(ctx, st0, q0).out.chunks;
    while pending && Queue(hub.queues, runId) != []
      invariant pending == Pending(adapter.runStore.runs, runId)
      invariant 0 <= resumed <= |q0| && Queue(hub.queues, runId) == q0[resumed..]
      invariant forall other :: other != runId ==> Queue(hub.queues, other) == Queue(old(hub.queues), other)
      invariant Reached(ctx, st0, q0, adapter.Snapshot(), Queue(hub.queues, runId), chunks, resumed)
      decreases |Queue(hub.queues, runId)|
    {
      ReachedStep(ctx, st0, q0, adapter.Snapshot(), Queue(hub.queues, runId), chunks, resumed);
      var payload := hub.Wait(runId);
      assert Queue(old(hub.queues), runId) == q0;
      var fromResume := adapter.ResumeFromContinuation(payload, now);
      assert Queue(hub.queues, runId) == q0[resumed + 1..];
      chunks := chunks + fromResume;
      resumed := resumed + 1;
      pending := adapter.HasPending();
    }
    ReachedEnd(ctx, st0, q0, adapter.Snapshot(), Queue(hub.queues, runId), chunks, resumed);
  }

  /** A user text on an adapter: the run on that text, then the pending loop. */
  method Serve(adapter: TanStackAdkAdapter, hub: ContinuationHub, text: string, now: int)
    returns (chunks: seq<StreamChunk>, pending: bool, ghost resumed: nat)
    modifies adapter, adapter.runStore, adapter.runner, hub
    ensures var s := Session(adapter.CtxAt(now), old(adapter.Snapshot()), Some(text), Queue(old(hub.queues), adapter.runId));
      && Out(adapter.Snapshot(), chunks) == s.out && resumed == s.resumed
      && resumed <= |Queue(old(hub.queues), adapter.runId)|
      && Queue(hub.queues, adapter.runId) == Queue(old(hub.queues), adapter.runId)[resumed..]
      && pending == Pending(adapter.runStore.runs, adapter.runId)
    ensures forall other :: other != adapter.runId ==> Queue(hub.queues, other) == Queue(old(hub.queues), other)
  {
    var first := adapter.RunFromUserText(text, now);
    var fromLoop;
    fromLoop, pending, resumed := PendingLoop(adapter, hub, now);
    chunks := first + fromLoop;
  }

  /**
   * The stream of `chat`. A fresh adapter runs the engine on the latest user text, then takes
   * one queued continuation per iteration while anything is pending. The stream is `finished`
   * when nothing is left pending (or there was no text), and then closes with a done chunk and
   * the sentinel; otherwise it is waiting for the client's next continuation.
   */
  method Chat(body: Option<ChatBody>, freshHex: string, model: string, userId: string,
              store: InMemoryRunStore, hub: ContinuationHub, runner: Runner,
              dumps: Value -> string, uuidHex: nat -> string, now: int)
    returns (runId: string, frames: seq<string>, finished: bool)
    modifies store, hub, runner
    ensures runId == ChooseRunId(body.GetOr(EmptyBody), freshHex)
    ensures var text := LatestUserText(body.GetOr(EmptyBody).messages);
      var ctx := Ctx(runId, model, userId, now, dumps, uuidHex, runner.respond);
      var s := Session(ctx, State("", 0, old(store.runs), old(runner.history)), text, Queue(old(hub.queues), runId));
      && store.runs == s.out.st.runs && runner.history == s.out.st.history
      && s.resumed <= |Queue(old(hub.queues), runId)|
      && Queue(hub.queues, runId) == Queue(old(hub.queues), runId)[s.resumed..]
      && (forall other :: other != runId ==> Queue(hub.queues, other) == Queue(old(hub.queues), other))
      && finished == (text.None? || !Pending(store.runs, runId))
      && frames == EncodeAll(dumps, s.out.chunks) + (if finished then Closing(ctx) else [])
  {
    var b := body.GetOr(EmptyBody);
    runId := ChooseRunId(b, freshHex);
    var text := ExtractUserText(b.messages);
    var adapter := new TanStackAdkAdapter(runId, model, runner, store, userId, dumps, uuidHex);
    var ctx := adapter.CtxAt(now);
    if text.None? {
      frames := Closing(ctx);
      finished := true;
      return;
    }
    var chunks, pending, resumed := Serve(adapter, hub, text.value, now);
    finished := !pending;
    frames := EncodeAll(dumps, chunks);
    if finished {
      frames := frames + Closing(ctx);
    }
  }
}
