/**
 * DiagnosticLoggerBase.cs: the sink that turns (event name, payload) pairs
 * into logger calls. A null payload is dropped; a DiagnosticEventBase (or a
 * derived record) is enriched through GetAdditionals and logged as one
 * trace-level call with a message template and an ordered argument list; any
 * other payload goes to the subclass's opaque Log(string, object?).
 *
 * Calls to the subclass's abstract members and to ILogger are recorded as
 * Effects, in order.
 */
module DiagnosticLogger {
  import opened Wrappers
  import opened DiagnosticEvent
  import opened Strings
  import DiagnosticListenerExt
  import Runtime

  datatype LogLevel = Trace | Debug | Information | Warning | Error | Critical

  /** The IDictionary<string, object?> GetAdditionals returns, in its enumeration order. */
  type Additionals = seq<(string, Obj)>

  /** `additionals.Keys`, in enumeration order. */
  function Keys(additionals: Additionals): (keys: seq<string>)
    ensures |keys| == |additionals|
    ensures forall i :: 0 <= i < |additionals| ==> keys[i] == additionals[i].0
    decreases |additionals|
  {
    if additionals == [] then [] else [additionals[0].0] + Keys(additionals[1..])
  }

  /** `additionals.Values`, in the same order as the keys. */
  function Values(additionals: Additionals): (values: seq<Obj>)
    ensures |values| == |additionals|
    ensures forall i :: 0 <= i < |additionals| ==> values[i] == additionals[i].1
    decreases |additionals|
  {
    if additionals == [] then [] else [additionals[0].1] + Values(additionals[1..])
  }

  /** What the sink does, in order, as seen from outside. */
  datatype Effect =
    | AdditionalsRequested(eventName: string, event: Obj)
    | LoggerCall(level: LogLevel, template: string, args: seq<Obj>)
    | OpaqueLogged(eventName: string, value: Obj)
  {
    function Kind(): EffectKind
    {
      match this
      case AdditionalsRequested(_, _) => Requested
      case LoggerCall(_, _, _) => Called
      case OpaqueLogged(_, _) => Forwarded
    }
  }

  datatype EffectKind = Requested | Called | Forwarded

  const TimestampLine: string := "Timestamp = {ts}"
  const EventIdLine: string := "EventId = {cmd}"
  const MethodNameLine: string := "MethodName = {op}"
  const GuidLine: string := "Guid = {opId}"
  const StackTraceHeader: string := "StackTrace ="
  const StackTracePlaceholder: string := "{stTr}"

  /** The four lines every enriched template starts with. */
  const BaseLines: seq<string> := [TimestampLine, EventIdLine, MethodNameLine, GuidLine]

  /** The lines added when the event carries a stack trace. */
  const StackTraceLines: seq<string> := [StackTraceHeader, StackTracePlaceholder]

  /** BaseLogMsg: the four base lines, each ended by AppendLine. */
  const BaseLogMsg: string :=
    TimestampLine + NewLine + EventIdLine + NewLine + MethodNameLine + NewLine + GuidLine + NewLine

  /**
   * The lines of the template for an event with the given additional keys.
   * The keys follow the base lines one per line; with no keys at all the
   * joined keys are empty and leave an empty line behind.
   */
  function TemplateLines(event: DiagnosticEventBase, keys: seq<string>): seq<string>
  {
    BaseLines
    + (if keys == [] then [""] else keys)
    + (if event.stackTrace.Some? then StackTraceLines else [])
  }

  function Template(event: DiagnosticEventBase, keys: seq<string>): string
  {
    Join(NewLine, TemplateLines(event, keys))
  }

  /** The argument list: the four base values, the additional values, and the stack trace text if any. */
  function Arguments(format: Formatter, eventName: string, event: DiagnosticEventBase, additionals: Additionals): seq<Obj>
  {
    [Text(format.localTimeText(event.timestamp)), Text(eventName), Text(event.operation), GuidBox(event.operationId)]
    + Values(additionals)
    + (if event.stackTrace.Some? then [Text(format.stackTraceText(event.stackTrace.value))] else [])
  }

  /** What OnNext does for one pair, given the subclass's GetAdditionals. */
  function OnNextEffects(
    format: Formatter, getAdditionals: (string, Obj) -> Additionals, key: string, value: Obj): seq<Effect>
  {
    match value
    case Null => []
    case Diagnostic(event, _) =>
      var additionals := getAdditionals(key, value);
      [ AdditionalsRequested(key, value),
        LoggerCall(Trace, Template(event, Keys(additionals)), Arguments(format, key, event, additionals)) ]
    case _ => [OpaqueLogged(key, value)]
  }

  /** The argument list begins with the four base values in order, then the additional values in order, then the stack trace text; nothing else. */
  lemma ArgumentsInOrder(format: Formatter, eventName: string, event: DiagnosticEventBase, additionals: Additionals)
    ensures var args := Arguments(format, eventName, event, additionals);
      && |args| == 4 + |additionals| + (if event.stackTrace.Some? then 1 else 0)
      && args[0] == Text(format.localTimeText(event.timestamp))
      && args[1] == Text(eventName)
      && args[2] == Text(event.operation)
      && args[3] == GuidBox(event.operationId)
      && (forall i :: 0 <= i < |additionals| ==> args[4 + i] == additionals[i].1)
      && (event.stackTrace.Some? ==> args[|args| - 1] == Text(format.stackTraceText(event.stackTrace.value)))
  {
  }

  lemma BaseLogMsgIsBaseLines()
    ensures BaseLogMsg == Join(NewLine, BaseLines) + NewLine
  {
    JoinFour(NewLine, TimestampLine, EventIdLine, MethodNameLine, GuidLine);
  }

  /** The StringBuilder steps of Log produce exactly the joined template lines. */
  lemma BuilderMatchesTemplate(event: DiagnosticEventBase, keys: seq<string>)
    ensures event.stackTrace.None? ==>
      BaseLogMsg + Join(NewLine, keys) == Template(event, keys)
    ensures event.stackTrace.Some? ==>
      BaseLogMsg + Join(NewLine, keys) + NewLine + StackTraceHeader + NewLine + StackTracePlaceholder
      == Template(event, keys)
  {
    var head := BaseLines + (if keys == [] then [""] else keys);
    BaseLogMsgIsBaseLines();
    JoinAfterLines(NewLine, BaseLines, BaseLogMsg, keys);
    assert BaseLogMsg + Join(NewLine, keys) == Join(NewLine, head);
    if event.stackTrace.Some? {
      JoinWithTwoMore(NewLine, head, StackTraceHeader, StackTracePlaceholder);
      assert TemplateLines(event, keys) == head + [StackTraceHeader, StackTracePlaceholder];
    } else {
      assert TemplateLines(event, keys) == head;
    }
  }

  /** Splitting the template at line feeds gives back its lines, when no key contains a line feed. */
  lemma TemplateSplitsIntoLines(event: DiagnosticEventBase, keys: seq<string>)
    requires forall i :: 0 <= i < |keys| ==> '\n' !in keys[i]
    ensures Split(Template(event, keys), '\n') == TemplateLines(event, keys)
  {
    var lines := TemplateLines(event, keys);
    forall i | 0 <= i < |lines| ensures '\n' !in lines[i] {
      if i >= 4 && i < 4 + |keys| && keys != [] {
        assert lines[i] == keys[i - 4];
      }
    }
    SplitJoin(lines, '\n');
  }

  /** The sum type OnNext decides once per payload. */
  datatype PayloadClass = NullPayload | EventPayload | OtherPayload

  function Classify(value: Obj): PayloadClass
  {
    match value
    case Null => NullPayload
    case Diagnostic(_, _) => EventPayload
    case _ => OtherPayload
  }

  function CountClass(pairs: seq<(string, Obj)>, c: PayloadClass): nat
    decreases |pairs|
  {
    if pairs == [] then 0 else (if Classify(pairs[0].1) == c then 1 else 0) + CountClass(pairs[1..], c)
  }

  function CountKind(effects: seq<Effect>, kind: EffectKind): nat
    decreases |effects|
  {
    if effects == [] then 0 else (if effects[0].Kind() == kind then 1 else 0) + CountKind(effects[1..], kind)
  }

  /** OnNext applied to every pair of a stream, in order. */
  function StreamEffects(
    format: Formatter, getAdditionals: (string, Obj) -> Additionals, pairs: seq<(string, Obj)>): seq<Effect>
    decreases |pairs|
  {
    if pairs == [] then []
    else OnNextEffects(format, getAdditionals, pairs[0].0, pairs[0].1) + StreamEffects(format, getAdditionals, pairs[1..])
  }

  lemma {:induction false} CountKindAppend(xs: seq<Effect>, ys: seq<Effect>, kind: EffectKind)
    ensures CountKind(xs + ys, kind) == CountKind(xs, kind) + CountKind(ys, kind)
    decreases |xs|
  {
    if xs == [] {
      assert xs + ys == ys;
    } else {
      assert (xs + ys)[1..] == xs[1..] + ys;
      CountKindAppend(xs[1..], ys, kind);
    }
  }

  /** What one OnNext call contributes to the tally. */
  lemma OnNextTally(format: Formatter, getAdditionals: (string, Obj) -> Additionals, key: string, value: Obj)
    ensures var effects := OnNextEffects(format, getAdditionals, key, value);
      && CountKind(effects, Called) == (if Classify(value) == EventPayload then 1 else 0)
      && CountKind(effects, Requested) == (if Classify(value) == EventPayload then 1 else 0)
      && CountKind(effects, Forwarded) == (if Classify(value) == OtherPayload then 1 else 0)
      && |effects| == (match Classify(value) case NullPayload => 0 case EventPayload => 2 case OtherPayload => 1)
      && (forall i :: 0 <= i < |effects| && effects[i].LoggerCall? ==> effects[i].level == Trace)
  {
    var effects := OnNextEffects(format, getAdditionals, key, value);
    match value
    case Null =>
    case Diagnostic(event, _) =>
      forall k ensures CountKind(effects, k) == (if k == Requested || k == Called then 1 else 0) {
        CountKindOfTwo(effects[0], effects[1], k);
      }
    case _ =>
      forall k ensures CountKind(effects, k) == (if k == Forwarded then 1 else 0) {
        CountKindOfOne(effects[0], k);
      }
  }

  lemma CountKindOfOne(e: Effect, kind: EffectKind)
    ensures CountKind([e], kind) == if e.Kind() == kind then 1 else 0
  {
    assert [e][1..] == [];
  }

  lemma CountKindOfTwo(e: Effect, f: Effect, kind: EffectKind)
    ensures CountKind([e, f], kind) == (if e.Kind() == kind then 1 else 0) + (if f.Kind() == kind then 1 else 0)
  {
    assert [e, f][1..] == [f];
    CountKindOfOne(f, kind);
  }

  /**
   * Over any stream: one logger call and one GetAdditionals request per event
   * payload, one opaque Log per other non-null payload, nothing for null, and
   * every logger call at trace level.
   */
  lemma {:induction false} StreamTally(
    format: Formatter, getAdditionals: (string, Obj) -> Additionals, pairs: seq<(string, Obj)>)
    ensures var effects := StreamEffects(format, getAdditionals, pairs);
      && CountKind(effects, Called) == CountClass(pairs, EventPayload)
      && CountKind(effects, Requested) == CountClass(pairs, EventPayload)
      && CountKind(effects, Forwarded) == CountClass(pairs, OtherPayload)
      && |effects| == 2 * CountClass(pairs, EventPayload) + CountClass(pairs, OtherPayload)
      && (forall i :: 0 <= i < |effects| && effects[i].LoggerCall? ==> effects[i].level == Trace)
    decreases |pairs|
  {
    if pairs != [] {
      var head := OnNextEffects(format, getAdditionals, pairs[0].0, pairs[0].1);
      var rest := StreamEffects(format, getAdditionals, pairs[1..]);
      assert StreamEffects(format, getAdditionals, pairs) == head + rest;
      OnNextTally(format, getAdditionals, pairs[0].0, pairs[0].1);
      StreamTally(format, getAdditionals, pairs[1..]);
      CountKindAppend(head, rest, Called);
      CountKindAppend(head, rest, Requested);
      CountKindAppend(head, rest, Forwarded);
      forall i | 0 <= i < |head + rest| && (head + rest)[i].LoggerCall?
        ensures (head + rest)[i].level == Trace
      {
        if i >= |head| {
          assert (head + rest)[i] == rest[i - |head|];
        }
      }
    }
  }

  /**
   * An event registered with no transform reaches this sink as one trace
   * call whose arguments carry the event name, the operation and the id the
   * registration returned, and whose template has no stack-trace lines.
   */
  lemma RegisteredEventIsLoggedWithItsId(
    format: Formatter, getAdditionals: (string, Obj) -> Additionals,
    now: Instant, eventName: string, operation: string, id: Guid)
    ensures
      var payload := DiagnosticListenerExt.Transform(None, DiagnosticEventBase(now, operation, id, None));
      var effects := OnNextEffects(format, getAdditionals, eventName, payload);
      var additionals := getAdditionals(eventName, payload);
      && |effects| == 2
      && effects[0] == AdditionalsRequested(eventName, payload)
      && effects[1].LoggerCall? && effects[1].level == Trace
      && |effects[1].args| == 4 + |additionals|
      && effects[1].args[1] == Text(eventName)
      && effects[1].args[2] == Text(operation)
      && effects[1].args[3] == GuidBox(id)
      && effects[1].template == Join(NewLine, BaseLines + (if additionals == [] then [""] else Keys(additionals)))
  {
    var payload := DiagnosticListenerExt.Transform(None, DiagnosticEventBase(now, operation, id, None));
    var additionals := getAdditionals(eventName, payload);
    ArgumentsInOrder(format, eventName, payload.event, additionals);
    assert Keys(additionals) == [] <==> additionals == [];
    assert TemplateLines(payload.event, Keys(additionals))
        == BaseLines + (if additionals == [] then [""] else Keys(additionals));
  }

  /**
   * Registering an enabled event with no caller id and no transform, then
   * handing the pair the listener received to the sink, yields one trace call
   * whose arguments carry the event name, the operation and the id the
   * registration returned.
   */
  method RegisteredEventReachesSink(
    listener: Runtime.DiagnosticListener, guids: Runtime.GuidSource, sink: DiagnosticLoggerBase,
    now: Instant, eventName: string, operation: string)
    returns (id: Guid)
    requires guids.Valid() && listener.IsEnabled(eventName)
    modifies listener`Writes, guids, sink`Effects
    ensures id != EmptyGuid
    ensures |sink.Effects| == |old(sink.Effects)| + 2
    ensures var call := sink.Effects[|sink.Effects| - 1];
      && call.LoggerCall? && call.level == Trace
      && |call.args| >= 4
      && call.args[1] == Text(eventName)
      && call.args[2] == Text(operation)
      && call.args[3] == GuidBox(id)
  {
    id := DiagnosticListenerExt.RegisterEventInternal(listener, guids, now, eventName, operation, None, None);
    var written := listener.Writes[|listener.Writes| - 1];
    sink.OnNext(written.0, written.1);
    RegisteredEventIsLoggedWithItsId(sink.Format, sink.GetAdditionals, now, eventName, operation, id);
  }

  class DiagnosticLoggerBase {
    /** How timestamps and stack traces are rendered as text. */
    const Format: Formatter
    /** The subclass's GetAdditionals(eventName, eventObj). */
    const GetAdditionals: (string, Obj) -> Additionals
    /** Everything the sink has done so far. */
    ghost var Effects: seq<Effect>

    constructor (format: Formatter, getAdditionals: (string, Obj) -> Additionals)
      ensures Format == format && GetAdditionals == getAdditionals && Effects == []
    {
      Format := format;
      GetAdditionals := getAdditionals;
      Effects := [];
    }

    /** OnNext(KeyValuePair): the three-way dispatch on the payload. */
    method OnNext(key: string, value: Obj)
      modifies this`Effects
      ensures Effects == old(Effects) + OnNextEffects(Format, GetAdditionals, key, value)
    {
      match value {
        case Null =>
          return;
        case Diagnostic(event, _) =>
          var additionals := RequestAdditionals(key, value);
          Log(key, event, additionals);
        case _ =>
          LogOpaque(key, value);
      }
    }

    method RequestAdditionals(eventName: string, event: Obj) returns (additionals: Additionals)
      modifies this`Effects
      ensures additionals == GetAdditionals(eventName, event)
      ensures Effects == old(Effects) + [AdditionalsRequested(eventName, event)]
    {
      additionals := GetAdditionals(eventName, event);
      Effects := Effects + [AdditionalsRequested(eventName, event)];
    }

    /** The subclass's Log(string, object?) for payloads that are not events. */
    method LogOpaque(eventName: string, value: Obj)
      modifies this`Effects
      ensures Effects == old(Effects) + [OpaqueLogged(eventName, value)]
    {
      Effects := Effects + [OpaqueLogged(eventName, value)];
    }

    /** Log(eventName, eventObj, additionals): build the arguments and the template, then one LogTrace call. */
    method Log(eventName: string, eventObj: DiagnosticEventBase, additionals: Additionals)
      modifies this`Effects
      ensures Effects == old(Effects)
        + [LoggerCall(Trace, Template(eventObj, Keys(additionals)), Arguments(Format, eventName, eventObj, additionals))]
    {
      var args := [Text(Format.localTimeText(eventObj.timestamp)), Text(eventName),
                   Text(eventObj.operation), GuidBox(eventObj.operationId)]
                  + Values(additionals);
      var logMsg := BaseLogMsg + Join(NewLine, Keys(additionals));
      if eventObj.stackTrace.Some? {
        args := args + [Text(Format.stackTraceText(eventObj.stackTrace.value))];
        logMsg := logMsg + NewLine + StackTraceHeader + NewLine + StackTracePlaceholder;
      }
      BuilderMatchesTemplate(eventObj, Keys(additionals));
      assert args == Arguments(Format, eventName, eventObj, additionals);
      assert logMsg == Template(eventObj, Keys(additionals));
      Effects := Effects + [LoggerCall(Trace, logMsg, args)];
    }

    /** OnCompleted: nothing. */
    method OnCompleted()
      ensures Effects == old(Effects)
    {
    }

    /** OnError: nothing. */
    method OnError()
      ensures Effects == old(Effects)
    {
    }
  }
}
