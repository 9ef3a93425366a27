/**
 * Stand-ins for the base-class-library pieces the core calls into:
 * System.Diagnostics.DiagnosticListener (its enablement query, Write and
 * Subscribe) and Guid.NewGuid. Only what the core can observe is modelled:
 * the query is a fixed predicate, Write appends to a log, Subscribe records
 * the sink and hands back a handle, NewGuid returns a value never issued before.
 */
module Runtime {
  import opened DiagnosticEvent

  /** Identity of an IObserver<KeyValuePair<string, object?>> (a sink). */
  type SinkRef = nat

  /** The IDisposable handle Subscribe returns: the source's name and the subscriber's position. */
  datatype Subscription = Subscription(source: string, index: nat)

  class DiagnosticListener {
    /** The listener's name, as announced to observers. */
    const Name: string
    /** `IsEnabled(eventName)`: whether some subscriber currently wants the event. */
    const IsEnabled: string -> bool
    /** Every `Write(eventName, payload)` so far, in order. */
    var Writes: seq<(string, Obj)>
    /** Every sink subscribed so far, in order. */
    var Subscribers: seq<SinkRef>

    constructor (name: string, isEnabled: string -> bool)
      ensures Name == name && IsEnabled == isEnabled
      ensures Writes == [] && Subscribers == []
    {
      Name := name;
      IsEnabled := isEnabled;
      Writes := [];
      Subscribers := [];
    }

    /** The handle the next Subscribe call hands out. */
    function NextHandle(): Subscription
      reads this
    {
      Subscription(Name, |Subscribers|)
    }

    method Write(eventName: string, payload: Obj)
      modifies this`Writes
      ensures Writes == old(Writes) + [(eventName, payload)]
    {
      Writes := Writes + [(eventName, payload)];
    }

    method Subscribe(sink: SinkRef) returns (handle: Subscription)
      modifies this`Subscribers
      ensures handle == old(NextHandle())
      ensures Subscribers == old(Subscribers) + [sink]
    {
      handle := NextHandle();
      Subscribers := Subscribers + [sink];
    }
  }

  /** Guid.NewGuid: every call yields a non-empty GUID that was never issued before. */
  class GuidSource {
    var counter: nat
    ghost var Issued: set<Guid>

    ghost predicate Valid()
      reads this
    {
      EmptyGuid !in Issued && forall g :: g in Issued ==> g.value <= counter
    }

    constructor ()
      ensures Valid() && Issued == {}
    {
      counter := 0;
      Issued := {};
    }

    method NewGuid() returns (g: Guid)
      requires Valid()
      modifies this
      ensures Valid()
      ensures g != EmptyGuid && g !in old(Issued)
      ensures Issued == old(Issued) + {g}
    {
      counter := counter + 1;
      g := Guid(counter);
      Issued := Issued + {g};
    }
  }
}
