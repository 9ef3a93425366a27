# Andromeda.Diagnostics: a Dafny model of the diagnostic publish/subscribe core

This project models the three cooperating parts of Andromeda.Diagnostics, an in-process layer over
`System.Diagnostics.DiagnosticListener`. Each part is modelled in Dafny and proved against its contract.

- **Conditional event registration** (`DiagnosticListenerExt`). The listener is asked whether the event
  name is enabled. If it is not, the zero GUID comes back and nothing else happens. If it is, the caller's
  operation id is used, or a fresh one is drawn. A base `DiagnosticEventBase` is then built, optionally
  transformed by `createEvent`, and written to the listener exactly once. The id is returned.
- **Subscription bookkeeping** (`DiagnosticObserverBase`). The observer is told about each newly created
  listener. While `IsEnabled` is on, it subscribes its sink to every listener whose name is in
  `ShouldListenTo` and keeps the handle. `OnCompleted` disposes every kept handle and clears the list.
- **Logging sink** (`DiagnosticLoggerBase`). It gets `(event name, payload)` pairs. Null payloads are
  dropped. A `DiagnosticEventBase` is enriched through `GetAdditionals` and logged in one trace-level
  call, with an ordered argument list and a message template built line by line. Any other payload goes
  to the subclass's own `Log(string, object?)`.

Files and modules:

- `wrappers.dfy` (`Wrappers`): `Option`, standing in for nullable values.
- `diagnostic_event.dfy` (`DiagnosticEvent`): the event record, GUIDs, instants, stack traces, and
  `Obj`, the `object?` values that flow through the core. `Formatter` holds the time-zone and culture
  dependent renderings as given functions.
- `runtime.dfy` (`Runtime`): stand-ins for the class library. `DiagnosticListener` has a
  fixed `IsEnabled` predicate, a log of writes and a log of subscribers, and hands out subscription
  handles. `GuidSource` returns GUIDs that were never issued before.
- `listener_ext.dfy` (`DiagnosticListenerExt`): the registration methods.
- `observer_base.dfy` (`DiagnosticObserver`): a value-level state machine (`ObserverState`, `Step`,
  `Run`) with lemmas over runs of notifications. Also the `DiagnosticObserverBase` class, whose
  methods are proved to follow that state machine.
- `strings.dfy` (`Strings`): `string.Join`, a one-character split, and the lemma that splitting returns
  what was joined.
- `logger_base.dfy` (`DiagnosticLogger`): the argument list and template as functions, the class
  whose `Log` builds them step by step, and the dispatch lemmas.

In the logger model, what the sink does is recorded in order as `Effect`s. There are three kinds:
a request to `GetAdditionals`, a logger call with its level, template and arguments, and a call to
the opaque `Log`.

Three behaviours of the code that a reader might not expect, all kept in the model:

- `RegisterEvent` returns `void` (DiagnosticListenerExt.cs:54); only `RegisterEventWithId` hands back
  an id: a freshly drawn one when the event is enabled, the zero GUID otherwise.
- No event or operation name is validated; empty names go through like any other.
- Completion is not terminal. `OnCompleted` clears the list but leaves `IsEnabled` as it is
  (DiagnosticObserverBase.cs:45-73), so an enabled observer subscribes again on the next allowed
  announcement.

## Model

| member | source | states |
|---|---|---|
| `DiagnosticListenerExt.RegisterEventInternal` | DiagnosticListenerExt.cs:91-117 | Disabled: returns the zero GUID, writes nothing and draws no GUID. `createEvent` may be a partial function. It need only be applicable to the base events the call can build, and only when the event is enabled. With a caller id, that is the event carrying that id. Without one, it is an event carrying a non-zero GUID never issued before. On the disabled path it is never invoked. Enabled: returns the caller's id if one was given, drawing nothing; otherwise returns a fresh non-zero id. Writes exactly one payload, under the event name: the base event (operation, returned id, timestamp `now`, no stack trace), passed through `createEvent` if given, else written as is. |
| `DiagnosticListenerExt.DisabledNeverInvokesTransform` | DiagnosticListenerExt.cs:99-116 | On a disabled event, a transform that fails on every input is accepted. The call returns the zero GUID and writes nothing. |
| `DiagnosticListenerExt.EnabledTransformNeedOnlyFitBuiltEvent` | DiagnosticListenerExt.cs:104-114 | On an enabled event, with no caller id, the operation `"op"` is accepted with a transform that fails on an empty operation name. Its result on the built event, which carries the returned non-zero id, is the one payload written. |
| `DiagnosticListenerExt.CallerIdTransformIsAccepted` | DiagnosticListenerExt.cs:101-112 | On an enabled event with a caller id, a transform defined only for base events carrying that id is accepted. The call returns that id and writes the transform's result. |
| `DiagnosticListenerExt.FreshIdTransformIsAccepted` | DiagnosticListenerExt.cs:101-112 | On an enabled event without a caller id, a transform defined only for non-zero ids is accepted. The returned id is non-zero, and the transform's result is written. |
| `DiagnosticListenerExt.RegisterEventWithId` | DiagnosticListenerExt.cs:25-32 | Passes no caller id. An enabled event therefore gets a freshly drawn, non-zero, never-issued id, with exactly one write. A disabled event gets the zero GUID and no write. |
| `DiagnosticListenerExt.RegisterEvent` | DiagnosticListenerExt.cs:54-62 | Same effect on the listener and on the GUID source as the internal routine with the same arguments. The id is discarded. |
| `DiagnosticListenerExt.DistinctIdsForSuccessiveEvents` | DiagnosticListenerExt.cs:101 | Two enabled registrations without a caller id get two different non-zero ids, with two writes. |
| `Runtime.GuidSource.NewGuid` | DiagnosticListenerExt.cs:101 | `Guid.NewGuid()`: a non-zero GUID not issued before, which is then recorded as issued. |
| `DiagnosticObserver.DiagnosticObserverBase.constructor` | DiagnosticObserverBase.cs:22-28 | Stores the given sink. Starts with an empty subscription list, no disposals, and `IsEnabled` off. |
| `DiagnosticObserver.DiagnosticObserverBase.SetIsEnabled` | DiagnosticObserverBase.cs:33 | Changes only the flag. Kept and disposed handles stay as they were. |
| `DiagnosticObserver.DiagnosticObserverBase.OnNext` | DiagnosticObserverBase.cs:45-61 | Disabled, or name not in `ShouldListenTo`: list and listener unchanged. Enabled with an allowed name: the sink is subscribed to that listener once, and its handle is appended at the end of the list. |
| `DiagnosticObserver.DiagnosticObserverBase.Dispose` | DiagnosticObserverBase.cs:70 | Disposing one handle records exactly that handle as disposed. |
| `DiagnosticObserver.DiagnosticObserverBase.OnCompleted` | DiagnosticObserverBase.cs:66-73 | Disposes every kept handle, in list order, then leaves the list empty. |
| `DiagnosticObserver.DiagnosticObserverBase.OnError` | DiagnosticObserverBase.cs:79 | Changes no state. |
| `DiagnosticObserver.RunAccountsForEveryHandle` | DiagnosticObserverBase.cs:52-72 | Over any run of notifications, completions, errors and toggles, no handle is lost or disposed twice. Disposed handles followed by kept ones always equal the starting handles followed by the accepted ones. |
| `DiagnosticObserver.RunWithoutCompletion` | DiagnosticObserverBase.cs:52-60 | Between completions nothing is disposed. The list gains exactly the accepted handles at its end: one per enabled, allowed announcement, with no de-duplication. |
| `DiagnosticObserver.CompletionDisposesEverySubscription` | DiagnosticObserverBase.cs:66-72 | A completion after a completion-free run leaves the list empty. It has disposed, in order, what was held plus everything the run subscribed. |
| `DiagnosticObserver.CompletionIsIdempotent` | DiagnosticObserverBase.cs:70-71 | A second completion disposes nothing more, and the list stays empty. |
| `DiagnosticObserver.CompletionIsNotTerminal` | DiagnosticObserverBase.cs:45-73 | After a completion, an observer that is still enabled subscribes again on the next allowed announcement: the list is exactly that new handle, and the old ones stay disposed. |
| `DiagnosticObserver.DisabledAcceptsNothing` | DiagnosticObserverBase.cs:47-50 | An observer that starts off and is never switched on subscribes to nothing, whatever is announced. Toggles that switch it off again are allowed. |
| `DiagnosticObserver.ToggleKeepsHandles` | DiagnosticObserverBase.cs:33 | Setting `IsEnabled` neither cancels nor adds subscriptions. |
| `DiagnosticObserver.ErrorChangesNothing` | DiagnosticObserverBase.cs:79 | An error notification leaves the observer's state as it was. |
| `DiagnosticLogger.Keys` | DiagnosticLoggerBase.cs:120 | The keys of the additionals, one per entry, in dictionary order. |
| `DiagnosticLogger.Values` | DiagnosticLoggerBase.cs:113 | The values of the additionals, one per entry, in the same order as the keys. |
| `DiagnosticLogger.ArgumentsInOrder` | DiagnosticLoggerBase.cs:108-126 | Argument count is 4 + number of additionals + 1 if a stack trace is present. The first four are, in order: local timestamp text, event name, operation, operation id. Then come the additional values in order. With a stack trace, its text comes last. |
| `DiagnosticLogger.BaseLogMsgIsBaseLines` | DiagnosticLoggerBase.cs:64-68 | `BaseLogMsg` is the four lines `Timestamp = {ts}`, `EventId = {cmd}`, `MethodName = {op}`, `Guid = {opId}`, each ended by a newline. |
| `DiagnosticLogger.BuilderMatchesTemplate` | DiagnosticLoggerBase.cs:116-131 | The StringBuilder steps produce the joined template lines. These are the four base lines, then the keys one per line (an empty line when there are none), then `StackTrace =` and `{stTr}` only when a stack trace is present. |
| `DiagnosticLogger.TemplateSplitsIntoLines` | DiagnosticLoggerBase.cs:116-131 | If no key contains a line feed, splitting the template at line feeds gives exactly those lines back. |
| `DiagnosticLogger.OnNextTally` | DiagnosticLoggerBase.cs:28-43 | One pair: null does nothing. An event asks `GetAdditionals` once and makes one trace-level logger call. Any other payload makes one opaque `Log` call and never asks `GetAdditionals`. |
| `DiagnosticLogger.StreamTally` | DiagnosticLoggerBase.cs:28-43 | Over a stream of pairs: as many logger calls, and as many `GetAdditionals` requests, as event payloads. As many opaque `Log` calls as other non-null payloads. Nothing else, and every logger call is at trace level. |
| `DiagnosticLogger.RegisteredEventIsLoggedWithItsId` | DiagnosticLoggerBase.cs:35-38 | For any id, the untransformed base event carrying it becomes one `GetAdditionals` request and one trace call. The call's arguments carry the event name, the operation and that id, and its template has no stack-trace lines. |
| `DiagnosticLogger.RegisteredEventReachesSink` | DiagnosticLoggerBase.cs:35-38 | Registering an enabled event with no caller id and no transform, then giving the written pair to the sink, adds two effects. The last is a trace call whose arguments carry the event name, the operation and the id the registration returned. |
| `DiagnosticLogger.DiagnosticLoggerBase.constructor` | DiagnosticLoggerBase.cs:19-22 | Keeps the renderings and `GetAdditionals` it is given, and starts with nothing done. |
| `DiagnosticLogger.DiagnosticLoggerBase.OnNext` | DiagnosticLoggerBase.cs:28-43 | Does the three-way dispatch, with exactly the effects of `OnNextEffects` appended. |
| `DiagnosticLogger.DiagnosticLoggerBase.RequestAdditionals` | DiagnosticLoggerBase.cs:37 | Returns what `GetAdditionals(key, event)` gives, and records one request. |
| `DiagnosticLogger.DiagnosticLoggerBase.LogOpaque` | DiagnosticLoggerBase.cs:41 | Records one call of the subclass's `Log(string, object?)` for the pair. |
| `DiagnosticLogger.DiagnosticLoggerBase.Log` | DiagnosticLoggerBase.cs:102-138 | Builds the arguments and the template step by step, then records one trace-level logger call carrying exactly `Template` and `Arguments`. |
| `DiagnosticLogger.DiagnosticLoggerBase.OnCompleted` | DiagnosticLoggerBase.cs:48 | Does nothing. |
| `DiagnosticLogger.DiagnosticLoggerBase.OnError` | DiagnosticLoggerBase.cs:54 | Does nothing. |

## Left out

- DiagnosticListenerExt.RegisterEventInternal: how many times `createEvent` is applied is not modelled. The transform is a pure Dafny function, so applying it twice cannot be observed. The contract shows only that a disabled call never needs the transform to be applicable.
- DiagnosticListenerExt.RegisterEventInternal: a `createEvent` that throws on the base event actually built is not modelled. In C# the exception propagates to the caller and nothing is written. The precondition excludes this case, because the model has no exceptions.
- The `lock (_syncRoot)` in the observer is not modelled: each observer method is one atomic step. In the source, `OnNext` reads `IsEnabled` before it takes the lock (DiagnosticObserverBase.cs:47-52); the model also makes that check atomic with the rest of `OnNext`, so it does not capture a toggle that lands between the check and the subscription.
- DiagnosticListenerBase.cs, the hook that disposes a listener when its assembly load context unloads, is not part of this model. It is runtime lifecycle plumbing.
- `DiagnosticListener` internals are left abstract. `IsEnabled` is a fixed predicate per listener. `Write` only appends to a log; the fan-out to subscribers is not modelled. `Subscribe` records the sink and returns a handle. What `Dispose` does inside the listener (removing the sink) is not modelled; disposals are recorded in the observer's ghost `Disposed` log instead.
- GUIDs are natural numbers, not 128-bit values, and `Guid.NewGuid` is a counter. The model treats uniqueness as certain, where the real generator makes it overwhelmingly likely.
- `DateTime.UtcNow` is a parameter of the registration methods.
- `ToLocalTime().ToString()` and `StackTrace.ToString()` depend on the time zone and the culture, so they are given functions in `Formatter` with no assumed properties. This includes `DiagnosticEventBase.TimestampLocal` (DiagnosticEventBase.cs:34).
- `Environment.NewLine` is fixed to the line feed `"\n"`; on Windows it is `"\r\n"`.
- The `ILogger` backend is not modelled. Each call is recorded as level, template and arguments. How placeholders are later bound to arguments is not interpreted.
- `ShouldListenTo` is fixed when the observer is built, and `GetAdditionals` is a given function. Any side effects of `GetAdditionals` beyond the recorded request are not modelled. The opaque `Log(string, object?)` is only recorded.
- Additionals are a sequence of key/value pairs in enumeration order. The model does not require the keys to be distinct, as a dictionary would.
- The exception argument of both `OnError` methods is dropped, since neither reads it.
- Object identity and boxing of arguments are not modelled: a boxed string or Guid is the value it holds.
