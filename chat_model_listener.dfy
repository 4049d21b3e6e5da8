/**
 * The chat-model listener service: an ordered registry of listeners, a fan-out of
 * request / response / error events to every listener with each listener's failure
 * caught, and the start-time bookkeeping that turns a response into a latency.
 */
module ChatModelListener {
  import opened Wrappers
  import opened Seqs
  import opened Messages

  /** How a listener reacts to one kind of event: no handler, a handler that returns, one that throws. */
  datatype Handler = Absent | Returns | Throws

  /** The contexts handed to listeners; the clock reading is the timestamp. */
  datatype Event =
    | RequestEvent(messages: seq<Message>, modelName: Option<string>, timestamp: int)
    | ResponseEvent(content: string, modelName: Option<string>, timestamp: int, latencyMs: int)
    | ErrorEvent(error: string, modelName: Option<string>, timestamp: int)

  /** What delivering an event to a listener did: nothing (no handler), ran, or threw and was caught. */
  datatype Outcome = Skipped | Handled | Caught

  /** One call `listener.onX?.(context)` inside the dispatch loop. */
  datatype Delivery = Delivery(listener: Listener, event: Event, outcome: Outcome)

  /** A registered listener; its identity is the object's identity, as with `indexOf`. */
  class Listener {
    const onRequest: Handler
    const onResponse: Handler
    const onError: Handler

    constructor (onRequest: Handler, onResponse: Handler, onError: Handler)
      ensures this.onRequest == onRequest && this.onResponse == onResponse && this.onError == onError
    {
      this.onRequest := onRequest;
      this.onResponse := onResponse;
      this.onError := onError;
    }

    /** The handler this listener has for the kind of `e`. */
    function HandlerFor(e: Event): Handler {
      match e
      case RequestEvent(_, _, _) => onRequest
      case ResponseEvent(_, _, _, _) => onResponse
      case ErrorEvent(_, _, _) => onError
    }
  }

  /** What one guarded call does: an absent handler is skipped, a throw is caught and logged. */
  function OutcomeOf(h: Handler): (r: Outcome)
    ensures r == Skipped <==> h == Absent
    ensures r == Caught <==> h == Throws
  {
    match h
    case Absent => Skipped
    case Returns => Handled
    case Throws => Caught
  }

  /**
   * The deliveries of one event: one per listener, in registration order, each outcome
   * decided by that listener alone (a throwing listener does not affect the others).
   */
  function Deliveries(ls: seq<Listener>, e: Event): (r: seq<Delivery>)
    ensures |r| == |ls|
    ensures forall i :: 0 <= i < |ls| ==> r[i] == Delivery(ls[i], e, OutcomeOf(ls[i].HandlerFor(e)))
  {
    if ls == [] then [] else [Delivery(ls[0], e, OutcomeOf(ls[0].HandlerFor(e)))] + Deliveries(ls[1..], e)
  }

  /** Delivering to two groups of listeners is delivering to the first, then to the second. */
  lemma {:induction false} DeliveriesAppend(ls1: seq<Listener>, ls2: seq<Listener>, e: Event)
    ensures Deliveries(ls1 + ls2, e) == Deliveries(ls1, e) + Deliveries(ls2, e)
    decreases |ls1|
  {
    if ls1 != [] {
      assert (ls1 + ls2)[1..] == ls1[1..] + ls2;
      DeliveriesAppend(ls1[1..], ls2, e);
    }
  }

  /** The number a string of decimal digits spells, most significant digit first. */
  function DigitsValue(s: string): int {
    if s == [] then 0 else 10 * DigitsValue(s[..|s| - 1]) + (s[|s| - 1] as int - '0' as int)
  }

  /** `String(n)`: the decimal digits of `n`, without leading zeros. */
  function Decimal(n: nat): (r: string)
    ensures |r| >= 1
    ensures forall i :: 0 <= i < |r| ==> '0' <= r[i] <= '9'
    ensures DigitsValue(r) == n
    ensures |r| > 1 ==> r[0] != '0'
  {
    var d := ['0' + (n % 10) as char];
    if n < 10 then d
    else
      var r := Decimal(n / 10) + d;
      assert r[..|r| - 1] == Decimal(n / 10);
      r
  }

  /** `generateRequestId`: `req_`, the clock reading, `_`, and a random suffix. */
  function RequestId(now: nat, random: string): (r: string)
    ensures |r| > 4 + |random| && r[..4] == "req_"
    ensures r[|r| - |random|..] == random
  {
    "req_" + Decimal(now) + "_" + random
  }

  /** `startTime ? now - startTime : 0`: a missing or zero (falsy) start gives latency 0. */
  function Latency(starts: map<string, int>, requestId: string, now: int): (r: int)
    ensures requestId !in starts ==> r == 0
    ensures requestId in starts && starts[requestId] == 0 ==> r == 0
    ensures requestId in starts && starts[requestId] != 0 ==> r + starts[requestId] == now
  {
    if requestId in starts && starts[requestId] != 0 then now - starts[requestId] else 0
  }

  /** A response right after its request sees the time elapsed since the request. */
  lemma LatencyAfterRequest(starts: map<string, int>, requestId: string, start: int, now: int)
    requires start != 0
    ensures Latency(starts[requestId := start], requestId, now) == now - start
  {
  }

  /**
   * A request followed by its response or error leaves the start-time map as it was,
   * provided the request id was fresh.
   */
  lemma BracketRestoresStarts(starts: map<string, int>, requestId: string, start: int)
    requires requestId !in starts
    ensures starts[requestId := start] - {requestId} == starts
  {
    assert (starts[requestId := start] - {requestId}).Keys == starts.Keys;
  }

  /** Delivering to one more listener appends its delivery. */
  lemma DeliveriesStep(ls: seq<Listener>, i: nat, e: Event)
    requires i < |ls|
    ensures Deliveries(ls[..i + 1], e) == Deliveries(ls[..i], e) + [Delivery(ls[i], e, OutcomeOf(ls[i].HandlerFor(e)))]
  {
    var longer := Deliveries(ls[..i + 1], e);
    var shorter := Deliveries(ls[..i], e);
    var d := Delivery(ls[i], e, OutcomeOf(ls[i].HandlerFor(e)));
    forall k | 0 <= k < |longer|
      ensures longer[k] == (shorter + [d])[k]
    {
      if k < i {
        assert ls[..i + 1][k] == ls[..i][k];
      }
    }
  }

  class ChatModelListenerService {
    var listeners: seq<Listener>
    var requestStartTime: map<string, int>
    /** Every listener call made so far, in order. */
    ghost var deliveries: seq<Delivery>

    /** Registers the default logging listener, which handles all three events. */
    constructor ()
      ensures |listeners| == 1 && fresh(listeners[0])
      ensures listeners[0].onRequest == Returns && listeners[0].onResponse == Returns
      ensures listeners[0].onError == Returns
      ensures requestStartTime == map[] && deliveries == []
    {
      var logger := new Listener(Returns, Returns, Returns);
      listeners := [logger];
      requestStartTime := map[];
      deliveries := [];
    }

    /** `addListener`: append at the end. */
    method AddListener(listener: Listener)
      modifies this
      ensures listeners == old(listeners) + [listener]
      ensures requestStartTime == old(requestStartTime) && deliveries == old(deliveries)
    {
      listeners := listeners + [listener];
    }

    /** `removeListener`: remove the first occurrence, if any. */
    method RemoveListener(listener: Listener)
      modifies this
      ensures listeners == RemoveFirst(old(listeners), listener)
      ensures requestStartTime == old(requestStartTime) && deliveries == old(deliveries)
    {
      var index := IndexOf(listeners, listener);
      if index > -1 {
        listeners := listeners[..index] + listeners[index + 1..];
      }
    }

    /** The dispatch loop: every listener in order, each call guarded by try/catch. */
    method Dispatch(e: Event)
      modifies this`deliveries
      ensures deliveries == old(deliveries) + Deliveries(listeners, e)
    {
      var i := 0;
      while i < |listeners|
        invariant 0 <= i <= |listeners|
        invariant deliveries == old(deliveries) + Deliveries(listeners[..i], e)
      {
        var listener := listeners[i];
        var outcome := match listener.HandlerFor(e)
          case Absent => Skipped
          case Returns => Handled
          case Throws => Caught;
        assert outcome == OutcomeOf(listener.HandlerFor(e));
        DeliveriesStep(listeners, i, e);
        ConcatAssoc(old(deliveries), Deliveries(listeners[..i], e), [Delivery(listener, e, outcome)]);
        deliveries := deliveries + [Delivery(listener, e, outcome)];
        i := i + 1;
      }
      assert listeners[..i] == listeners;
    }

    /** `onRequest`: record the start time under a new id, then notify. */
    method OnRequest(messages: seq<Message>, modelName: Option<string>, now: nat, random: string)
      returns (requestId: string)
      modifies this
      ensures requestId == RequestId(now, random)
      ensures requestStartTime == old(requestStartTime)[requestId := now]
      ensures listeners == old(listeners)
      ensures deliveries == old(deliveries) + Deliveries(listeners, RequestEvent(messages, modelName, now))
    {
      requestId := RequestId(now, random);
      requestStartTime := requestStartTime[requestId := now];
      Dispatch(RequestEvent(messages, modelName, now));
    }

    /** `onResponse`: compute the latency, forget the start time, then notify. */
    method OnResponse(requestId: string, content: string, modelName: Option<string>, now: int)
      modifies this
      ensures requestStartTime == old(requestStartTime) - {requestId}
      ensures listeners == old(listeners)
      ensures deliveries == old(deliveries) + Deliveries(listeners,
        ResponseEvent(content, modelName, now, Latency(old(requestStartTime), requestId, now)))
    {
      var latencyMs := 0;
      if requestId in requestStartTime && requestStartTime[requestId] != 0 {
        latencyMs := now - requestStartTime[requestId];
      }
      requestStartTime := requestStartTime - {requestId};
      Dispatch(ResponseEvent(content, modelName, now, latencyMs));
    }

    /** `onError`: forget the start time, then notify. */
    method OnError(requestId: string, error: string, modelName: Option<string>, now: int)
      modifies this
      ensures requestStartTime == old(requestStartTime) - {requestId}
      ensures listeners == old(listeners)
      ensures deliveries == old(deliveries) + Deliveries(listeners, ErrorEvent(error, modelName, now))
    {
      requestStartTime := requestStartTime - {requestId};
      Dispatch(ErrorEvent(error, modelName, now));
    }
  }
}
