/**
  The request/response correlation both worker clients share: a map of pending
  callbacks keyed by `request_id`, and one timeout timer per request. The two
  clients carry identical copies of this code; it is defined here once.

  The callback a request registers clears its own timer and settles its
  promise; the timer's callback deletes the pending entry and rejects with
  "Command timeout: <command>". `cleanup` clears the pending map but cannot
  reach the timers, so a request pending at cleanup is later rejected by its
  timer rather than left hanging.
 */
module Correlation {
  import opened Wrappers
  import opened Json
  import opened Effects

  /** `pending` holds the ids with a registered callback; `timers` maps the id
      of every armed, not yet cleared timeout to the command it reports. */
  datatype Router = Router(pending: set<string>, timers: map<string, string>)

  const Empty: Router := Router({}, map[])

  /** Every registered callback still has its timer armed. */
  predicate Valid(r: Router) {
    r.pending <= r.timers.Keys
  }

  /** A new request id (a UUID in the source) collides with nothing in use. */
  predicate Fresh(r: Router, id: string) {
    id !in r.pending && id !in r.timers
  }

  /** The default per-request timeout, in milliseconds. */
  const RequestTimeoutMs: int := 30000

  /** The `data` a request carries: `sendCommand`'s argument, `{}` when it is
      omitted. */
  function RequestData(data: Option<Json>): (d: Json)
    ensures data.None? ==> d == JObj(map[])
    ensures data.Some? ==> d == data.value
  {
    match data
    case Some(v) => v
    case None => JObj(map[])
  }

  /** The message of a timed-out request. */
  function TimeoutReason(command: string): Reason {
    Message("Command timeout: " + command)
  }

  /** `new Error(response.error || "Unknown error")`. */
  function ErrorReason(error: Option<Json>): (r: Reason)
    ensures !Truthy(error) ==> r == Message("Unknown error")
    ensures Truthy(error) && error.value.JStr? ==> r == Message(error.value.s)
    ensures Truthy(error) && !error.value.JStr? ==> r == Converted(error.value)
  {
    match error
    case Some(JStr(s)) => if s == "" then Message("Unknown error") else Message(s)
    case Some(v) => if Truthy(error) then Converted(v) else Message("Unknown error")
    case None => Message("Unknown error")
  }

  /** What the registered callback does with a response: resolve with
      `response.data` when `response.success` is truthy, reject otherwise. */
  function ResponseOutcome(response: Json): (o: Outcome)
    ensures o.Fulfilled? <==> Truthy(Get(response, "success"))
    ensures o.Fulfilled? ==> o.data == Get(response, "data")
    ensures o.Rejected? ==> o.reason == ErrorReason(Get(response, "error"))
  {
    if Truthy(Get(response, "success")) then Fulfilled(Get(response, "data"))
    else Rejected(ErrorReason(Get(response, "error")))
  }

  /** The key `pendingRequests.get(response.request_id)` can find: only a string
      id can equal a UUID key. */
  function ResponseKey(response: Json): (k: Option<string>)
    ensures k.Some? <==> Get(response, "request_id").Some? && Get(response, "request_id").value.JStr?
    ensures k.Some? ==> Get(response, "request_id") == Some(JStr(k.value))
  {
    match Get(response, "request_id")
    case Some(JStr(id)) => Some(id)
    case _ => None
  }

  /** `sendCommand`'s bookkeeping: arm the timeout, register the callback. */
  function Register(r: Router, id: string, command: string): (r': Router)
    requires Fresh(r, id)
    ensures Valid(r) ==> Valid(r')
    ensures r'.pending == r.pending + {id}
    ensures id in r'.timers && r'.timers[id] == command
    ensures forall k :: k != id ==> (k in r'.timers <==> k in r.timers)
    ensures forall k :: k in r.timers ==> r'.timers[k] == r.timers[k]
  {
    Router(r.pending + {id}, r.timers[id := command])
  }

  /** A response arriving: when its id has a callback, the callback settles that
      request (clearing its timer) and the entry is deleted; any other response
      changes nothing. */
  function Respond(r: Router, response: Json): (out: Out<Router>)
    ensures Valid(r) ==> Valid(out.state)
    ensures var k := ResponseKey(response);
            if k.Some? && k.value in r.pending then
              && out.effects == [Settled(k.value, ResponseOutcome(response))]
              && out.state.pending == r.pending - {k.value}
              && out.state.timers.Keys == r.timers.Keys - {k.value}
            else out == Out(r, [])
    ensures forall k :: k in out.state.timers ==> k in r.timers && out.state.timers[k] == r.timers[k]
  {
    match ResponseKey(response)
    case Some(id) =>
      if id in r.pending then
        Out(Router(r.pending - {id}, r.timers - {id}), [Settled(id, ResponseOutcome(response))])
      else Out(r, [])
    case None => Out(r, [])
  }

  /** The timeout of request `id` firing. A timer that was cleared (its request
      answered) never fires, which is the case `id !in r.timers`. */
  function Expire(r: Router, id: string): (out: Out<Router>)
    ensures Valid(r) ==> Valid(out.state)
    ensures id !in r.timers ==> out == Out(r, [])
    ensures id in r.timers ==>
              && out.effects == [Settled(id, Rejected(TimeoutReason(r.timers[id])))]
              && out.state.pending == r.pending - {id}
              && out.state.timers.Keys == r.timers.Keys - {id}
    ensures forall k :: k in out.state.timers ==> k in r.timers && out.state.timers[k] == r.timers[k]
  {
    if id in r.timers then
      Out(Router(r.pending - {id}, r.timers - {id}), [Settled(id, Rejected(TimeoutReason(r.timers[id])))])
    else Out(r, [])
  }

  /** `pendingRequests.clear()`. */
  function ClearPending(r: Router): (r': Router)
    ensures Valid(r')
    ensures r'.pending == {} && r'.timers == r.timers
  {
    Router({}, r.timers)
  }

  /** A settled request is settled once: the same response delivered again
      changes nothing and settles nothing. */
  lemma RespondOnce(r: Router, response: Json)
    ensures var o := Respond(r, response);
            Respond(o.state, response) == Out(o.state, [])
  {
  }

  /** Out-of-order resolution: two responses for different pending requests
      leave the same router whichever arrives first, and each settles its own
      request with its own outcome. */
  lemma OutOfOrder(r: Router, a: Json, b: Json)
    requires ResponseKey(a).Some? && ResponseKey(b).Some?
    requires ResponseKey(a) != ResponseKey(b)
    requires ResponseKey(a).value in r.pending && ResponseKey(b).value in r.pending
    ensures var ab1 := Respond(r, a); var ab2 := Respond(ab1.state, b);
            var ba1 := Respond(r, b); var ba2 := Respond(ba1.state, a);
            && ab2.state == ba2.state
            && ab1.effects == ba2.effects == [Settled(ResponseKey(a).value, ResponseOutcome(a))]
            && ab2.effects == ba1.effects == [Settled(ResponseKey(b).value, ResponseOutcome(b))]
  {
    var ka := ResponseKey(a).value;
    var kb := ResponseKey(b).value;
    assert r.pending - {ka} - {kb} == r.pending - {kb} - {ka};
    assert r.timers - {ka} - {kb} == r.timers - {kb} - {ka};
  }

  /** Timeout isolation: the timeout of one request leaves every other request's
      callback and timer in place, so a later response still settles it just as
      it would have before. */
  lemma TimeoutIsolation(r: Router, id: string, response: Json)
    requires ResponseKey(response).Some? && ResponseKey(response).value != id
    ensures var e := Expire(r, id);
            var k := ResponseKey(response).value;
            && (k in e.state.pending <==> k in r.pending)
            && (k in e.state.timers <==> k in r.timers)
            && Respond(e.state, response).effects == Respond(r, response).effects
  {
  }
}
