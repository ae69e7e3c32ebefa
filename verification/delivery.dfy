/** What the action `send` queues does once the limiter runs it: build the
    payload from the page, the trace and the captured event, decide between
    POSTing it and logging it, and interpret the endpoint's JSON reply
    (`request` in mod.ts). */
module Delivery {
  import opened Js
  import opened Gate
  import Trace
  import opened Events

  /** `window.SIBYL_MONITORING_DATA` as the payload sees it: its `typeof` is
      not `"object"`; or it is (arrays and `null` included) and `json` is what
      `JSON.stringify` gives for it; or it is an object `JSON.stringify`
      throws on (a circular structure). */
  datatype Monitoring = NotAnObject | AnObject(json: Value) | Unencodable

  /** The own properties `...e` spreads: `type`, `name`, `message`, `stack`. */
  function EventFields(e: Event): (m: map<string, Value>)
    ensures m.Keys == {"type", "name", "message", "stack"}
    ensures m["type"] == Str(KindName(e.kind))
    ensures m["name"] == e.name && m["message"] == e.message && m["stack"] == e.stack
  {
    map["type" := Str(KindName(e.kind)), "name" := e.name, "message" := e.message, "stack" := e.stack]
  }

  /** `e?.stack || e?.message`: the stack when it is truthy, the message
      otherwise. */
  function StackTrace(e: Event): (v: Value)
    ensures Truthy(e.stack) ==> v == e.stack
    ensures !Truthy(e.stack) ==> v == e.message
  {
    Or(e.stack, e.message)
  }

  /** The fields written before `...e` in the payload literal. */
  function ContextFields(env: Env, trace: Js.Option<Trace.TraceMap>, data: Monitoring, e: Event): (m: map<string, Value>)
    requires env.Browser? && !data.Unencodable?
    ensures m.Keys == {"href", "userAgent", "hostname", "ip", "country", "data", "stacktrace"}
    ensures m["href"] == Str(env.href) && m["userAgent"] == Str(env.userAgent) && m["hostname"] == Str(env.hostname)
    ensures m["ip"] == Trace.Lookup(trace, "ip") && m["country"] == Trace.Lookup(trace, "loc")
    ensures m["data"] == (if data.AnObject? then data.json else Null)
    ensures m["stacktrace"] == StackTrace(e)
  {
    map["href" := Str(env.href),
        "userAgent" := Str(env.userAgent),
        "hostname" := Str(env.hostname),
        "ip" := Trace.Lookup(trace, "ip"),
        "country" := Trace.Lookup(trace, "loc"),
        "data" := (if data.AnObject? then data.json else Null),
        "stacktrace" := StackTrace(e)]
  }

  /** The payload object built at lines 71-83; the event's fields are spread
      last and so win over any context field of the same name. */
  function Payload(env: Env, trace: Js.Option<Trace.TraceMap>, data: Monitoring, e: Event): (p: map<string, Value>)
    requires env.Browser? && !data.Unencodable?
    ensures p.Keys == {"href", "userAgent", "hostname", "ip", "country", "data", "stacktrace",
                       "type", "name", "message", "stack"}
    ensures forall k :: k in EventFields(e) ==> p[k] == EventFields(e)[k]
    ensures p["href"] == Str(env.href) && p["userAgent"] == Str(env.userAgent) && p["hostname"] == Str(env.hostname)
    ensures p["ip"] == Trace.Lookup(trace, "ip") && p["country"] == Trace.Lookup(trace, "loc")
    ensures p["data"] == (if data.AnObject? then data.json else Null)
    ensures p["stacktrace"] == (if Truthy(e.stack) then e.stack else e.message)
  {
    var ctx := ContextFields(env, trace, data, e);
    var ev := EventFields(e);
    assert ctx.Keys !! ev.Keys;
    Spread(ctx, ev)
  }

  /** The one-line console entries the script writes through `dev`. */
  datatype Log =
    | Reporting                                  // the "Error Reporting..." notice
    | LocalPayload(payload: map<string, Value>)  // a payload kept on the console
    | RemoteError(message: Value)                // an error message the endpoint returned
    | Sent(payload: map<string, Value>)          // the acknowledgement of a delivered payload

  /** What the queued action does: its console output, the POST it issues,
      if any, and whether it stopped on a throw. Nothing handles the
      action's promise, so such a throw surfaces as an unhandled rejection
      on the window. */
  datatype Report = Report(logs: seq<Log>, post: Js.Option<Post>, threw: bool)
  datatype Post = Post(url: string, body: map<string, Value>)

  /** The action `send(e)` queues, run against the resolved trace.
      `bodyThrows` says whether `JSON.stringify` throws on the payload (a
      BigInt or a circular structure among the event's fields); the body is
      encoded before the request is issued, so such a payload is never
      POSTed. */
  function Deliver(env: Env, endpoint: Js.Option<string>, trace: Js.Option<Trace.TraceMap>,
                   data: Monitoring, e: Event, bodyThrows: bool): (r: Report)
    requires env.Browser?
    // "Error Reporting..." is always logged first
    ensures |r.logs| >= 1 && r.logs[0] == Reporting
    // data that cannot be encoded stops the action once that line is logged
    ensures data.Unencodable? ==> r == Report([Reporting], None, true)
    ensures !data.Unencodable? ==>
              var routed := !IsLocal(env) && !IsRobot(env)
                            && IsFrenchOrNull(Trace.Lookup(trace, "loc")) && HasEndpoint(endpoint);
              && (r.post.Some? <==> routed && !bodyThrows)
              && (r.threw <==> routed && bodyThrows)
              && (r.post.Some? ==> r.post.value == Post(endpoint.value, Payload(env, trace, data, e)))
              && (routed ==> r.logs == [Reporting])
              && (!routed ==> r.logs == [Reporting, LocalPayload(Payload(env, trace, data, e))])
  {
    if data.Unencodable? then Report([Reporting], None, true)
    else
      var payload := Payload(env, trace, data, e);
      match Decide(env, endpoint, payload["country"])
      case LogLocally => Report([Reporting, LocalPayload(payload)], None, false)
      case PostTo(url) =>
        if bodyThrows then Report([Reporting], None, true)
        else Report([Reporting], Some(Post(url, payload)), false)
  }

  /** A failed trace fetch leaves `ip` and `country` undefined and does not
      stop delivery: the event goes out exactly when the other three
      conditions allow it. */
  lemma FailedTraceStillDelivers(env: Env, endpoint: Js.Option<string>, data: Monitoring, e: Event, bodyThrows: bool)
    requires env.Browser? && !data.Unencodable?
    ensures var r := Deliver(env, endpoint, None, data, e, bodyThrows);
            && (r.post.Some? <==> !IsLocal(env) && !IsRobot(env) && HasEndpoint(endpoint) && !bodyThrows)
            && Payload(env, None, data, e)["ip"] == Undefined
            && Payload(env, None, data, e)["country"] == Undefined
  {
  }

  /** A local page never reaches the network, whatever the other inputs. */
  lemma LocalNeverPosts(env: Env, endpoint: Js.Option<string>, trace: Js.Option<Trace.TraceMap>,
                        data: Monitoring, e: Event, bodyThrows: bool)
    requires env.Browser? && IsLocal(env)
    ensures Deliver(env, endpoint, trace, data, e, bodyThrows).post.None?
  {
  }

  /** A BigInt in an event field (a page throwing `{ message: 10n }`) cannot
      be encoded: however the gate decides, nothing is POSTed, and when the
      gate would POST the action throws instead. */
  lemma UnencodableBodyNeverPosts(env: Env, endpoint: Js.Option<string>, trace: Js.Option<Trace.TraceMap>,
                                  data: Monitoring, e: Event)
    requires env.Browser?
    ensures var r := Deliver(env, endpoint, trace, data, e, true);
            r.post.None? && (r.threw <==> data.Unencodable? || Decide(env, endpoint, Trace.Lookup(trace, "loc")).PostTo?)
  {
  }

  // ---------------------------------------------------------------------
  // The endpoint's reply

  /** One element of a reply's `errors` array: `null`/`undefined`, or
      something whose `message` property is read. */
  datatype ErrorItem = NullishItem | Item(message: Value)

  /** The `errors` property of a reply: an array, or any other value. */
  datatype Errors = ErrorsArray(items: seq<ErrorItem>) | ErrorsValue(v: Value)

  /** The decoded JSON reply: `null` (or a value without properties), or an
      object with `errors` and `data` properties (`undefined` when missing). */
  datatype Reply = NullishReply | ReplyObject(errors: Errors, data: Value)

  /** The console output of the reply handler, and whether it threw a
      `TypeError`. Nothing handles the request's promise, so that throw
      surfaces as an unhandled rejection on the window. */
  datatype Handled = Handled(logs: seq<Log>, threw: bool)

  /** Walking the `errors` array: each element's `message` property is logged
      as an error line, in order; the walk stops with a `TypeError` at the
      first nullish element, which cannot be destructured. */
  function ForEachError(items: seq<ErrorItem>): (h: Handled)
    ensures |h.logs| <= |items|
    ensures forall i :: 0 <= i < |h.logs| ==> items[i].Item? && h.logs[i] == RemoteError(items[i].message)
    ensures h.threw <==> |h.logs| < |items|
    ensures h.threw ==> items[|h.logs|].NullishItem?
    decreases |items|
  {
    if |items| == 0 then Handled([], false)
    else
      match items[0]
      case NullishItem => Handled([], true)
      case Item(m) =>
        var rest := ForEachError(items[1..]);
        Handled([RemoteError(m)] + rest.logs, rest.threw)
  }

  /** Whether `json?.errors` is truthy; an array always is, even empty. */
  predicate ErrorsTruthy(e: Errors) {
    e.ErrorsArray? || Truthy(e.v)
  }

  /** The `.then((json) => ...)` step of `request`. */
  function Interpret(reply: Reply, payload: map<string, Value>): (h: Handled)
    // truthy `errors`: one error line per element, `data` is not looked at
    ensures reply.ReplyObject? && reply.errors.ErrorsArray? ==>
              |h.logs| <= |reply.errors.items|
              && (forall i :: 0 <= i < |h.logs| ==> reply.errors.items[i].Item? && h.logs[i] == RemoteError(reply.errors.items[i].message))
              && (h.threw <==> exists i :: 0 <= i < |reply.errors.items| && reply.errors.items[i].NullishItem?)
              && (!h.threw ==> |h.logs| == |reply.errors.items|)
              && (h.threw ==> reply.errors.items[|h.logs|].NullishItem?)
    // a truthy `errors` that is not an array has no `forEach`
    ensures reply.ReplyObject? && reply.errors.ErrorsValue? && Truthy(reply.errors.v) ==> h == Handled([], true)
    // otherwise a truthy `data` is acknowledged, and nothing else is logged
    ensures reply.ReplyObject? && !ErrorsTruthy(reply.errors) ==>
              h == (if Truthy(reply.data) then Handled([Sent(payload)], false) else Handled([], false))
    ensures reply.NullishReply? ==> h == Handled([], false)
    ensures forall i :: 0 <= i < |h.logs| ==> !h.logs[i].LocalPayload? && !h.logs[i].Reporting?
  {
    match reply
    case NullishReply => Handled([], false)
    case ReplyObject(errors, data) =>
      if ErrorsTruthy(errors) then
        match errors
        case ErrorsArray(items) => ForEachError(items)
        case ErrorsValue(_) => Handled([], true)
      else if Truthy(data) then Handled([Sent(payload)], false)
      else Handled([], false)
  }

  /** The reply `{"errors":[{"message":"bad payload"}]}` gives exactly one error
      line with that message and nothing else. */
  lemma BadPayloadReply(payload: map<string, Value>)
    ensures Interpret(ReplyObject(ErrorsArray([Item(Str("bad payload"))]), Undefined), payload)
            == Handled([RemoteError(Str("bad payload"))], false)
  {
    var items := [Item(Str("bad payload"))];
    assert ForEachError(items[1..]) == Handled([], false);
  }
}
