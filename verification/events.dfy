/** The four capture hooks of mod.ts reduced to the records they pass to
    `send`: failed or timed-out `XMLHttpRequest`s, `console.error` calls,
    promise rejection events and window `error` events. Installing the hooks
    is left to the browser; only the record construction is modelled. */
module Events {
  import opened Js
  import opened Text

  /** The `type` tag of a captured event. */
  datatype Kind = Error | Network | RejectionHandled | UnhandledRejection

  function KindName(k: Kind): string {
    match k
    case Error => "error"
    case Network => "network"
    case RejectionHandled => "rejectionhandled"
    case UnhandledRejection => "unhandledrejection"
  }

  /** The object handed to `send`: `{ type, name, message, stack }`. */
  datatype Event = Event(kind: Kind, name: Value, message: Value, stack: Value)

  /** No field is `undefined` or `null`. */
  predicate Settled(e: Event) {
    !Nullish(e.name) && !Nullish(e.message) && !Nullish(e.stack)
  }

  // ---------------------------------------------------------------------
  // Network failures (the patched `XMLHttpRequest.prototype.open`)

  /** The two request events a listener is added for, in order. */
  datatype NetTrigger = OnError | OnTimeout

  function TriggerName(t: NetTrigger): string {
    match t
    case OnError => "error"
    case OnTimeout => "timeout"
  }

  /** `args.join(", ")` over the arguments given to `open`. */
  function OpenArgsText(args: seq<Value>): string {
    Join(seq(|args|, i requires 0 <= i < |args| => JoinText(args[i])), ", ")
  }

  /** The event a failed or timed-out request sends. */
  function NetworkEvent(args: seq<Value>, trigger: NetTrigger): (e: Event)
    ensures e.kind == Network && Settled(e)
    ensures e.message == Str("error") || e.message == Str("timeout")
    ensures e.message == Str("timeout") <==> trigger == OnTimeout
    ensures e.stack == Str("")
    ensures e.name.Str?
  {
    Event(Network, Str(OpenArgsText(args)), Coalesce(Str(TriggerName(trigger)), Str("")), Str(""))
  }

  /** The name lists the arguments of `open` in order, separated by `, `, a
      nullish argument as the empty text: no arguments give the empty name,
      one argument its own text, and each further argument adds `, ` and its
      text. */
  lemma NetworkNameGrows(args: seq<Value>, a: Value, trigger: NetTrigger)
    ensures NetworkEvent([], trigger).name == Str("")
    ensures NetworkEvent([a], trigger).name == Str(JoinText(a))
    ensures |args| >= 1 ==>
              NetworkEvent(args + [a], trigger).name == Str(NetworkEvent(args, trigger).name.s + ", " + JoinText(a))
  {
    var one := seq(1, i requires 0 <= i < 1 => JoinText([a][i]));
    assert one == [JoinText(a)];
    if |args| >= 1 {
      var longer := args + [a];
      var texts := seq(|args|, i requires 0 <= i < |args| => JoinText(args[i]));
      var textsLonger := seq(|longer|, i requires 0 <= i < |longer| => JoinText(longer[i]));
      assert textsLonger == texts + [JoinText(a)];
      JoinSnoc(texts, JoinText(a), ", ");
    }
  }

  /** `open(verb, url, async)` with a boolean flag names the request
      `verb, url, true` (or `false`); a trailing `null` adds an empty field. */
  lemma NetworkNameOfAsyncOpen(verb: string, url: string, async: bool, trigger: NetTrigger)
    ensures var flag := Other(async, if async then "true" else "false");
            NetworkEvent([Str(verb), Str(url), flag], trigger).name
              == Str(verb + ", " + url + ", " + (if async then "true" else "false"))
            && NetworkEvent([Str(verb), Str(url), flag, Null], trigger).name
              == Str(verb + ", " + url + ", " + (if async then "true" else "false") + ", ")
  {
    var flag := Other(async, if async then "true" else "false");
    NetworkNameOfOpen(verb, url, trigger);
    NetworkNameGrows([Str(verb), Str(url)], flag, trigger);
    assert [Str(verb), Str(url)] + [flag] == [Str(verb), Str(url), flag];
    NetworkNameGrows([Str(verb), Str(url), flag], Null, trigger);
    assert [Str(verb), Str(url), flag] + [Null] == [Str(verb), Str(url), flag, Null];
  }

  /** For the usual `open(verb, url)` the name is `verb, url`. */
  lemma NetworkNameOfOpen(verb: string, url: string, trigger: NetTrigger)
    ensures NetworkEvent([Str(verb), Str(url)], trigger).name == Str(verb + ", " + url)
  {
    var args := [Str(verb), Str(url)];
    var texts := seq(|args|, i requires 0 <= i < |args| => JoinText(args[i]));
    assert texts[0] == verb && texts[1] == url;
    assert texts[1..] == [url];
    assert Join(texts, ", ") == verb + ", " + Join([url], ", ");
  }

  // ---------------------------------------------------------------------
  // console.error

  /** What an engine conversion of an argument does: give a value, or throw
      an error, seen through its `message`, `stack` and `name`. */
  datatype Conversion = Gives(v: Value) | Throws(err: Fields)

  /** One argument `d` of a `console.error` call, with what the engine does
      to it (all opaque to the model): `stringThrows` is the error `String(d)`
      throws (an object without a prototype), if any; `json` is what
      `JSON.stringify(d)` gives (`undefined` for values it cannot encode) or
      throws (a circular structure); `joinThrows` is the error `join` throws
      when converting `d` itself (a Symbol), if any. */
  datatype ConsoleArg = ConsoleArg(value: Value, stringThrows: Option<Fields>, json: Conversion,
                                   joinThrows: Option<Fields>)

  /** `String(d)` contains `[object`. */
  predicate LooksLikeObject(a: ConsoleArg) {
    Contains(ToText(a.value), "[object")
  }

  /** The error the `map` step throws on `a`, if any: `String(d)` throwing, or
      `JSON.stringify(d)` throwing when it is called. */
  function MapError(a: ConsoleArg): Option<Fields> {
    match a.stringThrows
    case Some(err) => Some(err)
    case None => if LooksLikeObject(a) && a.json.Throws? then Some(a.json.err) else None
  }

  /** The element the `map` step gives for `a`: the JSON text when `String(d)`
      contains `[object`, the argument itself otherwise. */
  function Shown(a: ConsoleArg): Value
    requires MapError(a).None?
  {
    if LooksLikeObject(a) then a.json.v else a.value
  }

  /** The error `join` throws on the element for `a`, if any. A JSON result is
      a string or `undefined` and never throws. */
  function JoinError(a: ConsoleArg): Option<Fields> {
    if LooksLikeObject(a) then None else a.joinThrows
  }

  /** The map step throws first at `args[i]`. */
  ghost predicate FirstMapError(args: seq<ConsoleArg>, i: int) {
    0 <= i < |args| && MapError(args[i]).Some? && forall j :: 0 <= j < i ==> MapError(args[j]).None?
  }

  /** The map step goes through and the join throws first at `args[i]`. */
  ghost predicate FirstJoinError(args: seq<ConsoleArg>, i: int) {
    && (forall j :: 0 <= j < |args| ==> MapError(args[j]).None?)
    && 0 <= i < |args| && JoinError(args[i]).Some?
    && forall j :: 0 <= j < i ==> JoinError(args[j]).None?
  }

  /** Neither step throws on any argument. */
  predicate Converts(args: seq<ConsoleArg>) {
    forall i :: 0 <= i < |args| ==> MapError(args[i]).None? && JoinError(args[i]).None?
  }

  /** The text each argument contributes to the joined message. */
  function ShownTexts(args: seq<ConsoleArg>): (ts: seq<string>)
    requires forall i :: 0 <= i < |args| ==> MapError(args[i]).None?
    ensures |ts| == |args|
    ensures forall i :: 0 <= i < |args| ==> ts[i] == JoinText(Shown(args[i]))
  {
    seq(|args|, i requires 0 <= i < |args| => JoinText(Shown(args[i])))
  }

  /** The error the `catch` receives: the first error the map step throws,
      else the first error the join throws, else the `Error` built from the
      joined text, named `Error`, whose stack text is `stack`. */
  function CaughtError(args: seq<ConsoleArg>, stack: Value): Fields {
    match FirstSome(args, MapError)
    case Some(err) => err
    case None =>
      match FirstSome(args, JoinError)
      case Some(err) => err
      case None => Fields(Str(Join(ShownTexts(args), "\n")), stack, Str("Error"))
  }

  /** The event the `catch` sends for a caught error: its name, message and
      stack, each the empty string when nullish (a caught error has no
      `target`, so its `src` is never read). */
  function CaughtEvent(err: Fields): (e: Event)
    ensures e.kind == Error && Settled(e)
    ensures !Nullish(err.name) ==> e.name == err.name
    ensures !Nullish(err.message) ==> e.message == err.message
    ensures !Nullish(err.stack) ==> e.stack == err.stack
    ensures Nullish(err.name) ==> e.name == Str("")
    ensures Nullish(err.message) ==> e.message == Str("")
    ensures Nullish(err.stack) ==> e.stack == Str("")
  {
    Event(Error,
          Coalesce(err.name, Str("")),
          Coalesce(err.message, Coalesce(Undefined, Str(""))),
          Coalesce(err.stack, Str("")))
  }

  /** The event a `console.error(...args)` call sends. When no conversion
      throws, the thrown `Error(message)` carries the name `Error`, the
      joined text and the engine's `stack`; otherwise the first error thrown
      while building the text is the one reported. */
  function ConsoleEvent(args: seq<ConsoleArg>, stack: Value): (e: Event)
    ensures e.kind == Error && Settled(e)
    ensures Converts(args) ==>
              && e.name == Str("Error")
              && e.message == Str(Join(ShownTexts(args), "\n"))
              && (!Nullish(stack) ==> e.stack == stack)
    ensures forall i :: FirstMapError(args, i) ==> e == CaughtEvent(MapError(args[i]).value)
    ensures forall i :: FirstJoinError(args, i) ==> e == CaughtEvent(JoinError(args[i]).value)
  {
    CaughtEvent(CaughtError(args, stack))
  }

  /** The message keeps every argument: when no conversion throws and no
      argument's text holds a newline, splitting the message at newlines
      gives back the texts of the arguments, one per argument, in order. */
  lemma ConsoleMessageLines(args: seq<ConsoleArg>, stack: Value)
    requires |args| >= 1 && Converts(args)
    requires forall i :: 0 <= i < |args| ==> '\n' !in ShownTexts(args)[i]
    ensures Split(ConsoleEvent(args, stack).message.s, '\n') == ShownTexts(args)
  {
    SplitOfJoin(ShownTexts(args), '\n');
  }

  /** An object argument is written as its JSON text, a string argument as
      itself. */
  lemma ObjectArgumentIsStringified(text: string, json: string, stack: Value)
    requires !Contains(text, "[object")
    ensures var args := [ConsoleArg(Str(text), None, Gives(Str("\"" + text + "\"")), None),
                         ConsoleArg(Other(true, "[object Object]"), None, Gives(Str(json)), None)];
            ConsoleEvent(args, stack).message == Str(text + "\n" + json)
  {
    var args := [ConsoleArg(Str(text), None, Gives(Str("\"" + text + "\"")), None),
                 ConsoleArg(Other(true, "[object Object]"), None, Gives(Str(json)), None)];
    assert OccursAt("[object Object]", "[object", 0);
    assert Converts(args);
    var ts := ShownTexts(args);
    assert Shown(args[1]) == Str(json);
    assert ts[0] == text && ts[1] == json;
    assert ts[1..] == [json];
    assert Join(ts, "\n") == text + "\n" + Join([json], "\n");
  }

  /** An object whose JSON encoding throws (a circular structure) is reported
      through the thrown error: a `TypeError` with its own message and stack
      replaces the name `Error` and the joined text. */
  lemma CircularArgumentReportsItsError(text: string, err: Fields, stack: Value)
    requires !Contains(text, "[object")
    requires err.name == Str("TypeError") && err.message.Str? && !Nullish(err.stack)
    ensures var args := [ConsoleArg(Str(text), None, Gives(Str("\"" + text + "\"")), None),
                         ConsoleArg(Other(true, "[object Object]"), None, Throws(err), None)];
            var e := ConsoleEvent(args, stack);
            e.name == Str("TypeError") && e.message == err.message && e.stack == err.stack
  {
    var args := [ConsoleArg(Str(text), None, Gives(Str("\"" + text + "\"")), None),
                 ConsoleArg(Other(true, "[object Object]"), None, Throws(err), None)];
    assert OccursAt("[object Object]", "[object", 0);
    assert FirstMapError(args, 1);
  }

  /** A Symbol argument passes the map step unchanged and makes the join
      throw; the error the join throws is the one reported. */
  lemma SymbolArgumentReportsJoinError(description: string, err: Fields, stack: Value)
    requires !Contains(description, "[object")
    ensures var args := [ConsoleArg(Other(true, description), None, Gives(Undefined), Some(err))];
            ConsoleEvent(args, stack) == CaughtEvent(err)
  {
    var args := [ConsoleArg(Other(true, description), None, Gives(Undefined), Some(err))];
    assert FirstJoinError(args, 0);
  }

  // ---------------------------------------------------------------------
  // rejectionhandled / unhandledrejection

  /** The properties destructured from the rejection event itself:
      `reason`, and the event's own `stack` and `name`. */
  datatype RejectionIn = RejectionIn(reason: Value, stack: Value, name: Value)

  /** The event a promise rejection event sends. `name` and `stack` are read
      from the event object, not from its `reason`; the message is
      `${reason}`. */
  function RejectionEvent(kind: Kind, ev: RejectionIn): (e: Event)
    requires kind == RejectionHandled || kind == UnhandledRejection
    ensures e.kind == kind && Settled(e)
    ensures e.message == Str(ToText(ev.reason))
    ensures e.name == (if Nullish(ev.name) then Str("") else ev.name)
    ensures e.stack == (if Nullish(ev.stack) then Str("") else ev.stack)
  {
    Event(kind, Coalesce(ev.name, Str("")), Str(ToText(ev.reason)), Coalesce(ev.stack, Str("")))
  }

  /** The reason decides only the message: two rejection events that differ
      only in their reason give the same name and stack, and the same message
      exactly when the reasons have the same text. */
  lemma ReasonOnlySetsMessage(kind: Kind, ev: RejectionIn, other: Value)
    requires kind == RejectionHandled || kind == UnhandledRejection
    ensures var e1 := RejectionEvent(kind, ev);
            var e2 := RejectionEvent(kind, ev.(reason := other));
            e1.name == e2.name && e1.stack == e2.stack
            && (e1 == e2 <==> ToText(ev.reason) == ToText(other))
  {
  }

  /** A promise rejected with an `Error` reports only the error's text
      (`String(error)`, such as `Error: boom`): a rejection event has no own
      `name` or `stack`, so both are empty and the error's stack is lost. */
  lemma RejectedErrorLosesStack(kind: Kind, errorText: string)
    requires kind == RejectionHandled || kind == UnhandledRejection
    ensures RejectionEvent(kind, RejectionIn(Other(true, errorText), Undefined, Undefined))
            == Event(kind, Str(""), Str(errorText), Str(""))
  {
  }

  /** A rejection with an `undefined` reason reports the text `undefined`. */
  lemma UndefinedReason(kind: Kind)
    requires kind == RejectionHandled || kind == UnhandledRejection
    ensures RejectionEvent(kind, RejectionIn(Undefined, Undefined, Undefined)) == Event(kind, Str(""), Str("undefined"), Str(""))
  {
  }

  // ---------------------------------------------------------------------
  // window "error"

  /** The three properties destructured from an object. */
  datatype Fields = Fields(message: Value, stack: Value, name: Value)

  /** A window `error` event: `error` is its `error` property (`None` when
      that is nullish; a thrown primitive has all three fields undefined),
      `own` the event's own `message`, `stack` and `name`, and `targetSrc`
      the value of `err?.target?.src`. */
  datatype ErrorEventIn = ErrorEventIn(error: Option<Fields>, own: Fields, targetSrc: Value)

  /** `err?.error ?? err`, the object the fields are destructured from. */
  function Source(ev: ErrorEventIn): Fields {
    match ev.error
    case Some(f) => f
    case None => ev.own
  }

  /** The event a window `error` event sends: each field is the first
      defined value of its fallback chain, ending in the empty string. */
  function WindowErrorEvent(ev: ErrorEventIn): (e: Event)
    ensures e.kind == Error && Settled(e)
    ensures e.name == FirstDefined([Source(ev).name, ev.own.name, Str("")])
    ensures e.message == FirstDefined([Source(ev).message, ev.own.message, ev.targetSrc, Str("")])
    ensures e.stack == FirstDefined([Source(ev).stack, ev.own.stack, Str("")])
  {
    var src := Source(ev);
    CoalesceChain([src.name, ev.own.name], Str(""));
    CoalesceChain([src.message, ev.own.message, ev.targetSrc], Str(""));
    CoalesceChain([src.stack, ev.own.stack], Str(""));
    assert [src.name, ev.own.name] + [Str("")] == [src.name, ev.own.name, Str("")];
    assert [src.message, ev.own.message, ev.targetSrc] + [Str("")] == [src.message, ev.own.message, ev.targetSrc, Str("")];
    assert [src.stack, ev.own.stack] + [Str("")] == [src.stack, ev.own.stack, Str("")];
    var ms := [src.message, ev.own.message, ev.targetSrc];
    assert ms[1..] == [ev.own.message, ev.targetSrc];
    assert ms[1..][1..] == [ev.targetSrc];
    assert CoalesceAll([ev.targetSrc], Str("")) == Coalesce(ev.targetSrc, Str(""));
    assert CoalesceAll(ms[1..], Str("")) == Coalesce(ev.own.message, Coalesce(ev.targetSrc, Str("")));
    Event(Error,
          Coalesce(src.name, Coalesce(ev.own.name, Str(""))),
          Coalesce(src.message, Coalesce(ev.own.message, Coalesce(ev.targetSrc, Str("")))),
          Coalesce(src.stack, Coalesce(ev.own.stack, Str(""))))
  }

  /** A resource that failed to load (an image or script, no error object and
      no message) is reported by its `src`. */
  lemma ResourceFailureReportsSrc(own: Fields, src: string)
    requires Nullish(own.message)
    ensures WindowErrorEvent(ErrorEventIn(None, own, Str(src))).message == Str(src)
  {
    var vs := [own.message, own.message, Str(src), Str("")];
    assert FirstDefinedAt(vs, 2);
  }

  /** A thrown error's own message wins over the event's message. */
  lemma ThrownMessageWins(thrown: Fields, own: Fields, targetSrc: Value)
    requires !Nullish(thrown.message)
    ensures WindowErrorEvent(ErrorEventIn(Some(thrown), own, targetSrc)).message == thrown.message
  {
    var vs := [thrown.message, own.message, targetSrc, Str("")];
    assert FirstDefinedAt(vs, 0);
  }
}
