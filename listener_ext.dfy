/**
 * DiagnosticListenerExt.cs: conditional event registration. The enablement
 * check comes first; only on the enabled path is an id chosen, the base event
 * built, the optional transform applied, and exactly one payload written.
 */
module DiagnosticListenerExt {
  import opened Wrappers
  import opened DiagnosticEvent
  import opened Runtime

  /**
   * The `createEvent` argument: null, or a function from the base event to the
   * published object. It may be partial: its precondition stands for the
   * inputs on which the delegate returns instead of throwing.
   */
  type CreateEvent = Option<DiagnosticEventBase --> Obj>

  /** What `createEvent ??= x => x` turns into a payload: the base event itself when no transform is given. */
  function Transform(createEvent: CreateEvent, baseInfo: DiagnosticEventBase): Obj
    requires createEvent.Some? ==> createEvent.value.requires(baseInfo)
  {
    match createEvent
    case None => Diagnostic(baseInfo, None)
    case Some(f) => f(baseInfo)
  }

  /**
   * The base events a registration can build are the only ones the transform
   * is ever given: with a caller id, the one carrying that id; without, one
   * carrying a GUID that is not zero and was never issued before.
   */
  ghost predicate FitsBuiltEvent(
    createEvent: CreateEvent, now: Instant, operation: string,
    operationId: Option<Guid>, issued: set<Guid>)
  {
    createEvent.Some? ==>
      if operationId.Some? then
        createEvent.value.requires(DiagnosticEventBase(now, operation, operationId.value, None))
      else
        forall g: Guid :: g != EmptyGuid && g !in issued ==>
          createEvent.value.requires(DiagnosticEventBase(now, operation, g, None))
  }

  /**
   * RegisterEventInternal. `now` stands for DateTime.UtcNow. The transform
   * need only be applicable to the base events this call can build, and only
   * when the event is enabled: on the disabled path the method never applies
   * it, so even a transform that always fails is acceptable there.
   */
  method RegisterEventInternal(
    listener: DiagnosticListener, guids: GuidSource, now: Instant,
    eventName: string, operation: string,
    operationId: Option<Guid>, createEvent: CreateEvent)
    returns (id: Guid)
    requires guids.Valid()
    requires listener.IsEnabled(eventName) ==> FitsBuiltEvent(createEvent, now, operation, operationId, guids.Issued)
    modifies listener`Writes, guids
    ensures guids.Valid()
    // disabled: the zero GUID, nothing written, no GUID drawn
    ensures !listener.IsEnabled(eventName) ==>
      && id == EmptyGuid
      && listener.Writes == old(listener.Writes)
      && guids.Issued == old(guids.Issued)
    // enabled: the caller's id, or a fresh one drawn only when none was given
    ensures listener.IsEnabled(eventName) && operationId.Some? ==>
      id == operationId.value && guids.Issued == old(guids.Issued)
    ensures listener.IsEnabled(eventName) && operationId.None? ==>
      id != EmptyGuid && id !in old(guids.Issued) && guids.Issued == old(guids.Issued) + {id}
    // enabled: exactly one write, under eventName, of the (transformed) base event carrying id
    ensures listener.IsEnabled(eventName) ==>
      listener.Writes == old(listener.Writes)
        + [(eventName, Transform(createEvent, DiagnosticEventBase(now, operation, id, None)))]
  {
    if listener.IsEnabled(eventName) {
      var opId: Guid;
      if operationId.None? {
        opId := guids.NewGuid();
      } else {
        opId := operationId.value;
      }
      var baseInfo := DiagnosticEventBase(now, operation, opId, None);
      var create: DiagnosticEventBase --> Obj :=
        if createEvent.Some? then createEvent.value else (x: DiagnosticEventBase) => Diagnostic(x, None);
      listener.Write(eventName, create(baseInfo));
      id := opId;
    } else {
      id := EmptyGuid;
    }
  }

  /** RegisterEventWithId: never takes a caller id, so an enabled event gets a freshly drawn one. */
  method RegisterEventWithId(
    listener: DiagnosticListener, guids: GuidSource, now: Instant,
    eventName: string, operation: string, createEvent: CreateEvent)
    returns (id: Guid)
    requires guids.Valid()
    requires listener.IsEnabled(eventName) ==> FitsBuiltEvent(createEvent, now, operation, None, guids.Issued)
    modifies listener`Writes, guids
    ensures guids.Valid()
    ensures !listener.IsEnabled(eventName) ==>
      id == EmptyGuid && listener.Writes == old(listener.Writes) && guids.Issued == old(guids.Issued)
    ensures listener.IsEnabled(eventName) ==>
      && id != EmptyGuid && id !in old(guids.Issued) && guids.Issued == old(guids.Issued) + {id}
      && listener.Writes == old(listener.Writes)
           + [(eventName, Transform(createEvent, DiagnosticEventBase(now, operation, id, None)))]
  {
    id := RegisterEventInternal(listener, guids, now, eventName, operation, None, createEvent);
  }

  /** RegisterEvent: forwards its arguments unchanged and discards the id. */
  method RegisterEvent(
    listener: DiagnosticListener, guids: GuidSource, now: Instant,
    eventName: string, operation: string,
    operationId: Option<Guid>, createEvent: CreateEvent)
    requires guids.Valid()
    requires listener.IsEnabled(eventName) ==> FitsBuiltEvent(createEvent, now, operation, operationId, guids.Issued)
    modifies listener`Writes, guids
    ensures guids.Valid()
    ensures !listener.IsEnabled(eventName) ==>
      listener.Writes == old(listener.Writes) && guids.Issued == old(guids.Issued)
    ensures listener.IsEnabled(eventName) && operationId.Some? ==>
      && guids.Issued == old(guids.Issued)
      && listener.Writes == old(listener.Writes)
           + [(eventName, Transform(createEvent, DiagnosticEventBase(now, operation, operationId.value, None)))]
    ensures listener.IsEnabled(eventName) && operationId.None? ==>
      exists id :: id != EmptyGuid && id !in old(guids.Issued) && guids.Issued == old(guids.Issued) + {id}
        && listener.Writes == old(listener.Writes)
             + [(eventName, Transform(createEvent, DiagnosticEventBase(now, operation, id, None)))]
  {
    var _ := RegisterEventInternal(listener, guids, now, eventName, operation, operationId, createEvent);
  }

  /** Two enabled registrations without a caller id get two different, non-empty ids. */
  method DistinctIdsForSuccessiveEvents(
    listener: DiagnosticListener, guids: GuidSource, now: Instant, eventName: string, operation: string)
    returns (first: Guid, second: Guid)
    requires guids.Valid() && listener.IsEnabled(eventName)
    modifies listener`Writes, guids
    ensures first != EmptyGuid && second != EmptyGuid && first != second
    ensures |listener.Writes| == |old(listener.Writes)| + 2
  {
    first := RegisterEventWithId(listener, guids, now, eventName, operation, None);
    second := RegisterEventWithId(listener, guids, now, eventName, operation, None);
  }

  /**
   * A disabled event accepts even a transform that can never be applied
   * (one that would throw whatever it is given): it is never invoked, and the
   * call returns the zero GUID without writing.
   */
  method DisabledNeverInvokesTransform(
    listener: DiagnosticListener, guids: GuidSource, now: Instant, eventName: string, operation: string)
    returns (id: Guid)
    requires guids.Valid() && !listener.IsEnabled(eventName)
    modifies listener`Writes, guids
    ensures id == EmptyGuid
    ensures listener.Writes == old(listener.Writes)
  {
    var throwing: DiagnosticEventBase --> Obj := (b: DiagnosticEventBase) requires false => Null;
    id := RegisterEventInternal(listener, guids, now, eventName, operation, None, Some(throwing));
  }

  /**
   * On an enabled event a transform need only fit the base event actually
   * built: one that fails on an empty operation name is accepted for "op",
   * and its result is what gets written.
   */
  method EnabledTransformNeedOnlyFitBuiltEvent(
    listener: DiagnosticListener, guids: GuidSource, now: Instant, eventName: string)
    returns (id: Guid)
    requires guids.Valid() && listener.IsEnabled(eventName)
    modifies listener`Writes, guids
    ensures id != EmptyGuid
    ensures listener.Writes == old(listener.Writes)
      + [(eventName, Diagnostic(DiagnosticEventBase(now, "op", id, None), Some(7)))]
  {
    var partial: DiagnosticEventBase --> Obj :=
      (b: DiagnosticEventBase) requires b.operation != "" => Diagnostic(b, Some(7));
    id := RegisterEventInternal(listener, guids, now, eventName, "op", None, Some(partial));
  }

  /**
   * A transform defined only on the caller's own id, such as a lookup keyed
   * by it, is accepted on an enabled event, and its result is what is written.
   */
  method CallerIdTransformIsAccepted(
    listener: DiagnosticListener, guids: GuidSource, now: Instant,
    eventName: string, operation: string, known: Guid)
    returns (id: Guid)
    requires guids.Valid() && listener.IsEnabled(eventName)
    modifies listener`Writes, guids
    ensures id == known
    ensures listener.Writes == old(listener.Writes)
      + [(eventName, Diagnostic(DiagnosticEventBase(now, operation, known, None), Some(1)))]
  {
    var lookup: DiagnosticEventBase --> Obj :=
      (b: DiagnosticEventBase) requires b.operationId == known => Diagnostic(b, Some(1));
    id := RegisterEventInternal(listener, guids, now, eventName, operation, Some(known), Some(lookup));
  }

  /**
   * Without a caller id, a transform that rejects the zero GUID is accepted:
   * the id drawn for the event is never zero.
   */
  method FreshIdTransformIsAccepted(
    listener: DiagnosticListener, guids: GuidSource, now: Instant, eventName: string, operation: string)
    returns (id: Guid)
    requires guids.Valid() && listener.IsEnabled(eventName)
    modifies listener`Writes, guids
    ensures id != EmptyGuid
    ensures listener.Writes == old(listener.Writes)
      + [(eventName, Diagnostic(DiagnosticEventBase(now, operation, id, None), Some(2)))]
  {
    var nonZero: DiagnosticEventBase --> Obj :=
      (b: DiagnosticEventBase) requires b.operationId != EmptyGuid => Diagnostic(b, Some(2));
    id := RegisterEventWithId(listener, guids, now, eventName, operation, Some(nonZero));
  }
}
