# Sibyl Monitoring core, modelled in Dafny

Sibyl Monitoring is a script a web page loads to report its own runtime
errors. It hooks four capture sources: failed or timed-out `XMLHttpRequest`s,
`console.error` calls, unhandled and handled promise rejections, and window
`error` events. Each source turns what it saw into an event record
`{ type, name, message, stack }`.

`send` hands every event to a rate limiter with a fixed window. A window of
thirty seconds opens at the first call after the previous one ran out; at most
three actions run in one window and the rest wait in a queue. The window is
not sliding. The call that opens a window always runs an action at once, so
up to five actions can run within a millisecond: two at the end of one window
and three at the start of the next. When the limiter runs the
action, the action:

- builds a payload from the page, the Cloudflare trace (`ip`, `loc`) and the
  event;
- decides whether to POST the payload to the configured endpoint or only log
  it to the console;
- interprets the endpoint's JSON reply.

This project models that core as pure functions over explicit inputs. It
proves the properties the code is built to keep.

| file | module | what it models |
|---|---|---|
| `js.dfy` | `Js` | JavaScript values as the script sees them: nullish and truthy tests, `??`, `\|\|`, `String(v)`, the element conversion of `join`, object spread |
| `text.dfy` | `Text` | `includes`, `split` on one character, `join`, and ASCII case folding |
| `limiter.dfy` | `Limiter` | `rateFactory` / `limit`: one call as a pure step, runs of submissions and timer firings |
| `gate.dfy` | `Gate` | `isLocal`, `isRobot`, `isFrenchOrNull`, the endpoint parameter, and the POST-or-log decision |
| `trace.dfy` | `Trace` | parsing the trace body with `split` and `Object.fromEntries`, and `trace?.key` |
| `events.dfy` | `Events` | the records the four hooks pass to `send` |
| `delivery.dfy` | `Delivery` | the payload, the queued action, and the handling of the endpoint's reply |

How the model treats the script's environment:

- **Time.** `Date.now()` becomes a `now` argument.
- **Timers.** `setTimeout(limit, d)` becomes a `Deferred(d)` outcome. The
  limiter state also gains a counter `pending`, the number of rechecks that are
  scheduled but have not fired yet. A timer firing is a `Fire` input.
- **A failed `queue.shift()()`.** Calling `shift()` on an empty queue gives
  `undefined`, and calling that throws. The model writes this as a `Threw`
  outcome rather than a precondition.
- **Opaque conversions.** These become inputs: the trace body, the decoded
  JSON reply, the `JSON.stringify` texts and whether they throw, the engine's
  stack text, and `decodeURIComponent` (a function parameter that may fail).
- **Any other JavaScript value.** A value that is not `undefined`, `null` or a
  string is `Other(truthy, text)`. It carries its truthiness and its `String`
  text, so `??` and `||` behave exactly as in the script.

Behaviours of the code worth knowing, all modelled as the code has them:

- A failed trace fetch resolves to `undefined` (`.catch(() => {})`). Both
  `ip` and `country` then read `undefined`, and delivery goes on.
- For rejection events, `name` and `stack` are read from the event object
  itself. A promise rejected with an `Error` therefore reports only the
  error's text, with empty name and stack.
- The gate tests the truthiness of `endpoint` (`!endpoint`). An endpoint
  that decodes to the empty string counts as missing.
- Only `"FR"` or a falsy country is eligible. The comparison is
  case-sensitive.
- Event fields are never `undefined` or `null`, but they need not be
  strings. For example, a thrown `{ message: 5 }` reports the number 5.
- A `console.error` call whose message cannot be built (an argument with a
  circular structure, an object without a prototype, a Symbol) reports the
  error thrown while building it, not an `Error` with the joined text.
- A `SIBYL_MONITORING_DATA` with a circular structure stops the queued
  action right after it logs "Error Reporting...": nothing is POSTed or
  logged for that event.

## Model

| member | source | states |
|---|---|---|
| `Limiter.Limit` | mod.ts:51-60 | A call carrying an action appends it to the back of the queue; a recheck leaves the queue as it is. The window restarts at `now` exactly when `per - (now - time) <= 0`; otherwise `time` and `count` are kept. `count` rises by exactly one on every call. Within the budget the oldest queued action runs (FIFO). Over the budget the queue is kept and one recheck is scheduled after `per - (now - time)` ms; with `to >= 1` that delay is positive and ends exactly with the window. A throw happens only when the queue is empty |
| `Limiter.StepKeepsInv` | mod.ts:52-59 | One submission or timer firing keeps the queue length equal to the number of scheduled rechecks, and from such a state the call never throws |
| `Limiter.RunKeepsInv` | mod.ts:46-62 | Along any run of submissions and timer firings from a state where the queue length equals the scheduled rechecks (the initial state included), that equality holds at the end and no call throws, so `queue.shift()` never meets an empty queue |
| `Limiter.RunIsFifo` | mod.ts:47-58 | No action is lost or reordered: the actions that ran, followed by those still queued, are the initially queued actions followed by every submitted action, in order |
| `Limiter.RunsWithinWindow` | mod.ts:53-58 | While no call restarts the window, at most `to - count` more actions run |
| `Limiter.WindowBound` | mod.ts:53-58 | Between two window restarts at most `to` actions run |
| `Limiter.OpeningCallRuns` | mod.ts:53-58 | The call that opens a window, from a consistent state with a positive budget, runs an action at once, sets the window start to its own instant and the count to one |
| `Limiter.DefaultWindowBound` | mod.ts:46-65 | The limiter `send` uses, built with the defaults, runs at most three actions per thirty-second window |
| `Limiter.DeferredRecheckRuns` | mod.ts:53-59 | Deferred, not dropped: the recheck a deferred call schedules, firing at its due instant with nothing in between, finds the window elapsed and runs the oldest queued action |
| `Limiter.BurstOfFive` | mod.ts:46-62 | With three per second, five sends at one instant run three at once and defer two to the end of the window; the two rechecks then run them in submission order |
| `Gate.IsLocal` | mod.ts:5-8 | Local exactly when not in a browser, the hostname is `localhost`, `127.0.0.1` or `[::1]`, or the hostname contains `192.` |
| `Gate.IsRobot` | mod.ts:9-11 | A robot exactly when one of `bot`, `googlebot`, `crawler`, `spider`, `robot`, `crawling` occurs in the user agent, ignoring ASCII case; never outside a browser |
| `Gate.RobotCoreWords` | mod.ts:9-11 | The same test holds exactly when `bot`, `crawler`, `spider` or `crawling` occurs; `googlebot` and `robot` add nothing |
| `Gate.IsFrenchOrNull` | mod.ts:12 | A string country is eligible exactly when it is `"FR"` or empty; `undefined` and `null` are eligible; any other value exactly when falsy |
| `Gate.CountryEligibility` | mod.ts:12 | `undefined`, `""` and `"FR"` are eligible; `"fr"` and `"DE"` are not |
| `Gate.ResolveEndpoint` | mod.ts:2-3 | A missing or empty `endpoint` parameter yields no endpoint. Otherwise loading fails exactly when decoding the parameter throws, and the endpoint is the decoded parameter when it does not |
| `Gate.Decide` | mod.ts:84-86 | The payload is POSTed, to the endpoint, exactly when the page is not local, the visitor not a robot, the country eligible and an endpoint set |
| `Gate.AnyFailureLogsLocally` | mod.ts:84-86 | Any single failing condition routes the payload to the local log, whatever the other three say |
| `Gate.GooglebotNeverPosts` | mod.ts:9-11 | A Googlebot user agent is never reported over the network, whatever the host, endpoint and country |
| `Text.Contains` | mod.ts:8 | `includes` holds exactly when the pattern occurs at some position of the text |
| `Text.Split` | mod.ts:42 | `split` on one character gives at least one piece, no piece holds the separator, and the pieces joined with the separator give back the text |
| `Text.SplitOfJoin` | mod.ts:42 | Splitting undoes joining for pieces free of the separator |
| `Js.FirstDefined` | mod.ts:149-151 | A chain of `??` yields the first candidate that is not nullish, or `undefined` when all are |
| `Js.CoalesceChain` | mod.ts:149-151 | A right-nested `??` chain is the first-defined choice, and a chain ending in a defined value is never nullish |
| `Js.Spread` | mod.ts:71-83 | Object spread keeps every key of both objects; the later object's value wins on shared keys |
| `Trace.EntryOf` | mod.ts:42-43 | A line's key is the text before its first `=`; its value is the text between the first and second `=`, or absent when the line has no `=` |
| `Trace.EntryOfPair` | mod.ts:42-43 | A line `key=value` with no further `=` gives exactly that key and value |
| `Trace.FromEntries` | mod.ts:43 | The keys are those of the entries, and each key holds the value of its last entry, so a later duplicate overwrites an earlier one |
| `Trace.ParseLastLineWins` | mod.ts:40-43 | In a parsed trace body, the last line with a given key determines that key's value |
| `Trace.Lookup` | mod.ts:75-76 | `trace?.ip` and `trace?.loc` are `undefined` for a failed fetch, a missing key or a line without `=`, and the line's text otherwise |
| `Events.NetworkEvent` | mod.ts:92-100 | A network event has type `network`, message `"error"` or `"timeout"` according to the listener, empty stack, and a string name |
| `Events.NetworkNameGrows` | mod.ts:92-97 | The name lists the arguments of `open` in order, separated by `, `: no arguments give `""`, one its own text, and each further argument adds `, ` and its text, a nullish one as `""` |
| `Events.NetworkNameOfOpen` | mod.ts:92-97 | For `open(verb, url)` the name is `verb, url` |
| `Events.NetworkNameOfAsyncOpen` | mod.ts:92-97 | For `open(verb, url, async)` the name is `verb, url, true` (or `false`); a further `null` argument adds `, ` and nothing else |
| `Js.FirstSome` | mod.ts:111-113 | A left-to-right pass stops at the first element that throws: nothing is thrown exactly when no element throws, and otherwise the error is the first element's |
| `Events.ConsoleEvent` | mod.ts:109-122 | A `console.error` event has type `error` and no nullish field. When no conversion throws, its name is `Error`, its message the arguments joined with newlines (JSON text standing for arguments whose `String` form contains `[object`) and a defined engine stack is kept. Otherwise it reports the first error the `map` step throws, or, when that step goes through, the first error the `join` throws |
| `Events.CaughtEvent` | mod.ts:115-122 | The `catch` reports the caught error's name, message and stack, each `""` when nullish |
| `Events.ConsoleMessageLines` | mod.ts:110-114 | When no conversion throws and no argument's text holds a newline, splitting the message at newlines gives back one text per argument, in order |
| `Events.ObjectArgumentIsStringified` | mod.ts:112-113 | `console.error(text, object)` reports `text`, a newline, then the object's JSON text |
| `Events.CircularArgumentReportsItsError` | mod.ts:109-122 | `console.error(text, o)` with a circular `o` reports the `TypeError` that `JSON.stringify` throws: its name, message and stack |
| `Events.SymbolArgumentReportsJoinError` | mod.ts:111-122 | A Symbol argument passes the `map` step and makes the `join` throw; that error is what is reported |
| `Events.RejectionEvent` | mod.ts:127-136 | A rejection event carries its own type and the message `${reason}`. Its name and stack are the event object's own properties, or `""` when nullish |
| `Events.ReasonOnlySetsMessage` | mod.ts:130-136 | The reason decides only the message: changing it keeps name and stack, and keeps the event exactly when the reasons have the same text |
| `Events.RejectedErrorLosesStack` | mod.ts:130-136 | A promise rejected with an `Error` reports the error's text with empty name and stack |
| `Events.UndefinedReason` | mod.ts:130-136 | A rejection with an `undefined` reason reports the message `undefined` and empty name and stack |
| `Events.WindowErrorEvent` | mod.ts:146-152 | A window error event has type `error`. Each field is the first defined value of its fallback chain: from `err.error ?? err`, then from the event, then (for the message) `target.src`, then `""` |
| `Events.ResourceFailureReportsSrc` | mod.ts:146-150 | A failed resource load without error object or message is reported by its `src` |
| `Events.ThrownMessageWins` | mod.ts:146-150 | A thrown error's message wins over the event's message |
| `Delivery.StackTrace` | mod.ts:70 | `stacktrace` is the stack when it is truthy and the message otherwise |
| `Delivery.Payload` | mod.ts:70-83 | The payload has exactly the eleven fields. The event's fields override the context's. `ip` and `country` come from the trace keys `ip` and `loc`. `data` is the JSON text for an object and `null` otherwise, and `stacktrace` is the stack or, when that is falsy, the message |
| `Delivery.Deliver` | mod.ts:26-87 | The queued action first logs "Error Reporting...". Monitoring data that cannot be encoded then stops it, with nothing posted or logged. Otherwise, when the gate refuses (tested on the trace's `loc`) the payload is logged locally; when the gate allows it the payload is POSTed to the endpoint, unless encoding the body throws, which stops the action with nothing posted |
| `Delivery.UnencodableBodyNeverPosts` | mod.ts:26-30 | A payload whose body cannot be encoded is never POSTed; the action throws exactly when the data cannot be encoded or the gate would have POSTed |
| `Delivery.FailedTraceStillDelivers` | mod.ts:40-86 | After a failed trace fetch, `ip` and `country` are `undefined` and the event is still POSTed whenever the other three conditions allow it |
| `Delivery.LocalNeverPosts` | mod.ts:84-86 | A local page never POSTs, whatever the other inputs |
| `Delivery.ForEachError` | mod.ts:34 | One error line per element of `errors`, in order, stopping with a throw at the first nullish element |
| `Delivery.Interpret` | mod.ts:32-38 | A truthy `errors` array logs one error line per element, in order, with that element's message, and ignores `data`. All elements are logged when none is nullish; otherwise the lines stop at the first nullish element, which throws. A truthy non-array `errors` throws. Otherwise a truthy `data` logs `sent` once, and else nothing is logged |
| `Delivery.BadPayloadReply` | mod.ts:32-34 | The reply `{"errors":[{"message":"bad payload"}]}` yields exactly one error line with that message |

## Left out

- Hook installation is not modelled: the `XMLHttpRequest.prototype.open` patch (mod.ts:90-104), the `console.error` override (mod.ts:106-125) and the `window.addEventListener` registrations (mod.ts:127-156). These are browser side effects; only the records the hooks build are modelled. The call through to the original `console.error` (line 116) is left out with them.
- Network I/O is not modelled: the `fetch` of the endpoint and of the trace service, `res.json()` and `r.text()`. The trace body and the decoded reply are inputs.
- The text `JSON.stringify` makes of the POST body (line 29) is not modelled, only whether it throws, so a round trip through JSON is not stated. A `res.json()` that fails is not modelled either.
- The memoised `tracePromise` and the asynchronous ordering of the pipeline are not modelled. All events see one shared trace value, given as `Js.Option<Trace.TraceMap>`.
- The `dev` console wrappers (lines 13-18) are left out. Their output is the `Delivery.Log` list. The start-up lines "missing endpoint" (line 19) and "Activated" (line 157) are console output and are left out too.
- `import.meta.url`, `URL`, `decodeURIComponent`, `JSON.stringify` of console arguments and of `SIBYL_MONITORING_DATA`, `String(v)` of objects, and the engine's stack text are treated as opaque inputs. Whether a conversion of a `console.error` argument throws, and what it throws, is an input too.
- `Events.RejectionEvent`: a reason whose text cannot be produced (a Symbol, or an object whose `toString` throws) makes `${reason}` throw inside the listener, which then sends nothing. The model assumes the reason's text exists.
- `Events.ConsoleEvent`: an argument whose `toString` gives different results on the `map` step and on the `join` (a conversion with side effects) is not modelled; each argument has one `String` text.
- `Limiter.Limit`: one clock reading serves both `Date.now()` calls (lines 53 and 55). The script reads the clock twice, but those reads differ by at most the time between two adjacent statements.
- `Limiter.Limit`: `to` and `per` are integers. The script never passes other values, since `rateFactory()` is called with its defaults.
- `Limiter.Run`: the timer delay is not checked against the instant at which a `Fire` input happens. Any instant may be supplied, and `Limiter.DeferredRecheckRuns` covers the instant at which the timer is due.
- `Gate.ResolveEndpoint`: a parameter that fails to decode stops the script while it loads, so no hook is installed and nothing is ever reported. The model only flags that outcome (`LoadFails`); the rest of the model describes a script that loaded.
- `Delivery.Deliver`: a thrown action (unencodable data or body) or a rejected request (a failed `fetch`, `res.json()`, or a throwing reply handler) leaves a promise nobody handles. The window then fires `unhandledrejection`, and the script's own rejection hook sends a new event for it, of type `unhandledrejection` with the rejection's text and empty name and stack (`Events.RejectedErrorLosesStack`). When the cause persists, as with unencodable monitoring data, each such report throws again and the script keeps reporting at the limiter's pace. This feedback through the event loop is not modelled.
- `Trace.Lookup`: reads of keys that `Object.prototype` carries (`constructor`, `toString`) would find the inherited property when the trace lacks them; that is not modelled, since the script reads only `ip` and `loc`.
- `Delivery.Payload`: the payload is a map, so the property order of the object is not modelled. That order fixes the order of keys in the JSON text.
- `Gate.IsRobot`: the regular expression is modelled as a substring search over the user agent with ASCII letters folded to lower case. Without the `u` flag, JavaScript's case-insensitive matching never maps a non-ASCII character onto an ASCII one, so this search matches the same strings as the regular expression.
