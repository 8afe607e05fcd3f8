/**
 * The continuation hub: one FIFO queue of continuation payloads per run id, created on
 * first use. `push` never blocks and never drops; `wait` takes the head of the queue. The
 * model's `Wait` can only be called on a non-empty queue: the blocking of the source's
 * `await queue.get()` is left to the caller (see `Server.Chat`).
 */
module Continuation {
  import opened Wrappers
  import opened Json

  /**
   * A continuation body as posted by the client: its run id, and the items of its
   * `approvals` and `tool_results` dictionaries in dictionary order (`None` / empty when the
   * key is missing or falsy).
   */
  datatype Payload = Payload(
    runId: Option<string>,
    approvals: seq<(string, Value)>,
    toolResults: seq<(string, Value)>)

  type Queues = map<string, seq<Payload>>

  /** The queue of `run_id`; a key never used reads as an empty queue (the defaultdict). */
  function Queue(qs: Queues, runId: string): seq<Payload> {
    if runId in qs then qs[runId] else []
  }

  /** The queues after `push(run_id, payload)`. */
  function Pushed(qs: Queues, runId: string, payload: Payload): (r: Queues)
    ensures Queue(r, runId) == Queue(qs, runId) + [payload]
    ensures forall other :: other != runId ==> Queue(r, other) == Queue(qs, other)
  {
    qs[runId := Queue(qs, runId) + [payload]]
  }

  /** The queues after `wait(run_id)` returned, and what it returned. */
  function Taken(qs: Queues, runId: string): (r: (Queues, Payload))
    requires Queue(qs, runId) != []
    ensures [r.1] + Queue(r.0, runId) == Queue(qs, runId)
    ensures forall other :: other != runId ==> Queue(r.0, other) == Queue(qs, other)
  {
    var q := Queue(qs, runId);
    (qs[runId := q[1..]], q[0])
  }

  /** One call on the hub, as a client (`push`) or a stream (`wait`) makes it. */
  datatype HubCall = PushCall(pushTo: string, payload: Payload) | WaitCall(waitOn: string)

  /** The queues, and every `(run id, payload)` a wait has returned so far, in order. */
  datatype HubTrace = HubTrace(queues: Queues, delivered: seq<(string, Payload)>)

  /** One call applied to a trace; `None` when a wait would find its queue empty and block. */
  function ReplayCall(t: HubTrace, call: HubCall): Option<HubTrace> {
    match call
    case PushCall(id, p) => Some(HubTrace(Pushed(t.queues, id, p), t.delivered))
    case WaitCall(id) =>
      if Queue(t.queues, id) == [] then None
      else Some(HubTrace(Taken(t.queues, id).0, t.delivered + [(id, Taken(t.queues, id).1)]))
  }

  /** Replays a sequence of calls from the given queues. */
  function Replay(qs: Queues, calls: seq<HubCall>): Option<HubTrace> {
    if calls == [] then Some(HubTrace(qs, []))
    else
      var prev := Replay(qs, calls[..|calls| - 1]);
      if prev.None? then None else ReplayCall(prev.value, calls[|calls| - 1])
  }

  /** What one call pushes to `runId`. */
  function PushedBy(call: HubCall, runId: string): seq<Payload> {
    if call.PushCall? && call.pushTo == runId then [call.payload] else []
  }

  /** The payloads pushed to `runId` by `calls`, in call order. */
  function PushedTo(calls: seq<HubCall>, runId: string): seq<Payload> {
    if calls == [] then [] else PushedTo(calls[..|calls| - 1], runId) + PushedBy(calls[|calls| - 1], runId)
  }

  /** The payloads delivered to waits on `runId`, in delivery order. */
  function DeliveredTo(delivered: seq<(string, Payload)>, runId: string): seq<Payload> {
    if delivered == [] then []
    else
      var d := delivered[|delivered| - 1];
      DeliveredTo(delivered[..|delivered| - 1], runId) + (if d.0 == runId then [d.1] else [])
  }

  /** What a queue has delivered plus what it still holds, for one run id. */
  function Seen(t: HubTrace, runId: string): seq<Payload> {
    DeliveredTo(t.delivered, runId) + Queue(t.queues, runId)
  }

  /** One call adds to `runId`'s delivered-plus-queued payloads exactly what it pushes there. */
  lemma ReplayCallIsFifo(t: HubTrace, call: HubCall, runId: string)
    requires ReplayCall(t, call).Some?
    ensures Seen(ReplayCall(t, call).value, runId) == Seen(t, runId) + PushedBy(call, runId)
  {
    match call
    case PushCall(id, p) =>
    case WaitCall(id) =>
      var d := t.delivered + [(id, Taken(t.queues, id).1)];
      assert d[..|d| - 1] == t.delivered;
  }

  /**
   * First in, first out, per run id, and nothing lost: for every run id, what its waits
   * received followed by what is still queued is exactly what was queued before followed by
   * what was pushed to it, in push order. Pushes made before any wait are kept, and calls
   * on other run ids neither add to nor take from this run id's queue.
   */
  lemma {:induction false} ReplayIsFifo(qs: Queues, calls: seq<HubCall>, runId: string)
    requires Replay(qs, calls).Some?
    ensures Seen(Replay(qs, calls).value, runId) == Queue(qs, runId) + PushedTo(calls, runId)
  {
    if calls != [] {
      var init := calls[..|calls| - 1];
      var last := calls[|calls| - 1];
      ReplayIsFifo(qs, init, runId);
      ReplayCallIsFifo(Replay(qs, init).value, last, runId);
    }
  }

  class ContinuationHub {
    var queues: Queues

    constructor ()
      ensures queues == map[]
    {
      queues := map[];
    }

    /** Appends `payload` to the queue of `runId`; no other queue changes. */
    method Push(runId: string, payload: Payload)
      modifies this
      ensures queues == Pushed(old(queues), runId, payload)
    {
      var queue := if runId in queues then queues[runId] else [];
      queues := queues[runId := queue + [payload]];
    }

    /** Removes and returns the head of the queue of `runId`. */
    method Wait(runId: string) returns (payload: Payload)
      requires Queue(queues, runId) != []
      modifies this
      ensures (queues, payload) == Taken(old(queues), runId)
    {
      var queue := queues[runId];
      payload := queue[0];
      queues := queues[runId := queue[1..]];
    }
  }
}
