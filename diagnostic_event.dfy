/**
 * The diagnostic event record (DiagnosticEventBase.cs) and the small universe
 * of runtime values (`object?`) that flow through listeners and sinks.
 * Time, GUIDs and stack traces are plain values here; the culture- and
 * time-zone-dependent renderings are functions handed in through a Formatter.
 */
module DiagnosticEvent {
  import opened Wrappers

  /** A UTC instant (a DateTime tick count). */
  datatype Instant = Instant(ticks: int)

  /** A GUID; `default(Guid)` is the all-zero value EmptyGuid. */
  datatype Guid = Guid(value: nat)

  const EmptyGuid: Guid := Guid(0)

  /** A captured call stack, as its frame descriptions. */
  datatype StackTrace = StackTrace(frames: seq<string>)

  /** The base event record: timestamp in UTC, operation name, operation id, optional stack trace. */
  datatype DiagnosticEventBase = DiagnosticEventBase(
    timestamp: Instant,
    operation: string,
    operationId: Guid,
    stackTrace: Option<StackTrace>)

  /** Identity of a .NET object the model does not look into. */
  type ObjRef = nat

  /**
   * The values an `object?` can hold in this core: null, a boxed string, a boxed
   * Guid, a DiagnosticEventBase (with `derived` naming the extra state of a
   * derived record, None for the base record itself), or any other object.
   */
  datatype Obj =
    | Null
    | Text(s: string)
    | GuidBox(g: Guid)
    | Diagnostic(event: DiagnosticEventBase, derived: Option<ObjRef>)
    | Opaque(ref: ObjRef)

  /**
   * The renderings the logger needs: `Timestamp.ToLocalTime().ToString()` and
   * `StackTrace.ToString()`. They depend on the time zone and the culture, so
   * the model takes them as given functions with no further properties.
   */
  datatype Formatter = Formatter(
    localTimeText: Instant -> string,
    stackTraceText: StackTrace -> string)
}
