/**
 * DiagnosticObserverBase.cs: the observer of newly created listeners. While
 * enabled, each announced listener whose name is on the allow-list gets the
 * sink subscribed, and the handle is kept; completion disposes every kept
 * handle and clears the list. Each method is one atomic step here. In the
 * source, OnNext reads IsEnabled before it takes the lock, so the model also
 * makes that check atomic with the rest of OnNext.
 *
 * The pure part (ObserverState and the After* functions) is the specification
 * the class methods are proved against; the lemmas about runs of signals are
 * stated on it.
 */
module DiagnosticObserver {
  import opened Runtime

  /** The observer's abstract state: the IsEnabled flag, the kept handles, and every handle disposed so far. */
  datatype ObserverState = ObserverState(
    enabled: bool,
    subscriptions: seq<Subscription>,
    disposed: seq<Subscription>)

  /** OnNext for a listener called `name`, where `handle` is what subscribing to it would return. */
  function AfterNext(s: ObserverState, allow: seq<string>, name: string, handle: Subscription): ObserverState
  {
    if s.enabled && name in allow then s.(subscriptions := s.subscriptions + [handle]) else s
  }

  /** OnCompleted: dispose every kept handle, in order, then clear the list. */
  function AfterCompleted(s: ObserverState): ObserverState
  {
    s.(subscriptions := [], disposed := s.disposed + s.subscriptions)
  }

  /** The setter of IsEnabled. */
  function AfterToggle(s: ObserverState, enabled: bool): ObserverState
  {
    s.(enabled := enabled)
  }

  /** The notifications an observer can receive, plus the IsEnabled setter. */
  datatype Signal =
    | Announced(name: string, handle: Subscription)
    | Completed
    | Errored
    | Toggled(enabled: bool)

  function Step(s: ObserverState, allow: seq<string>, signal: Signal): ObserverState
  {
    match signal
    case Announced(name, handle) => AfterNext(s, allow, name, handle)
    case Completed => AfterCompleted(s)
    case Errored => s
    case Toggled(enabled) => AfterToggle(s, enabled)
  }

  function Run(s: ObserverState, allow: seq<string>, signals: seq<Signal>): ObserverState
    decreases |signals|
  {
    if signals == [] then s else Run(Step(s, allow, signals[0]), allow, signals[1..])
  }

  /**
   * An independent account of which handles a run subscribes: every announced
   * handle whose name is allowed while the flag (as last toggled) is on, in
   * order, with no de-duplication.
   */
  function Accepted(enabled: bool, allow: seq<string>, signals: seq<Signal>): seq<Subscription>
    decreases |signals|
  {
    if signals == [] then []
    else
      match signals[0]
      case Announced(name, handle) =>
        (if enabled && name in allow then [handle] else []) + Accepted(enabled, allow, signals[1..])
      case Toggled(b) => Accepted(b, allow, signals[1..])
      case _ => Accepted(enabled, allow, signals[1..])
  }

  /** The flag a run ends with: the last toggle, or the initial flag. */
  function FinalEnabled(enabled: bool, signals: seq<Signal>): bool
    decreases |signals|
  {
    if signals == [] then enabled
    else FinalEnabled(if signals[0].Toggled? then signals[0].enabled else enabled, signals[1..])
  }

  /**
   * No handle is ever lost or disposed twice: along any run, the disposed
   * handles followed by the kept ones are exactly the handles held at the
   * start followed by every handle the run accepted.
   */
  lemma {:induction false} RunAccountsForEveryHandle(s: ObserverState, allow: seq<string>, signals: seq<Signal>)
    ensures Run(s, allow, signals).disposed + Run(s, allow, signals).subscriptions
         == s.disposed + s.subscriptions + Accepted(s.enabled, allow, signals)
    ensures Run(s, allow, signals).enabled == FinalEnabled(s.enabled, signals)
    decreases |signals|
  {
    if signals != [] {
      var t := Step(s, allow, signals[0]);
      RunAccountsForEveryHandle(t, allow, signals[1..]);
    }
  }

  /**
   * Between completions the list only grows: it gains exactly the accepted
   * handles at its end (one per enabled, matching announcement, duplicates
   * included) and nothing is disposed.
   */
  lemma {:induction false} RunWithoutCompletion(s: ObserverState, allow: seq<string>, signals: seq<Signal>)
    requires Completed !in signals
    ensures Run(s, allow, signals).subscriptions == s.subscriptions + Accepted(s.enabled, allow, signals)
    ensures Run(s, allow, signals).disposed == s.disposed
    decreases |signals|
  {
    if signals != [] {
      assert signals[0] in signals;
      assert forall x :: x in signals[1..] ==> x in signals;
      RunWithoutCompletion(Step(s, allow, signals[0]), allow, signals[1..]);
    }
  }

  lemma {:induction false} RunAppend(s: ObserverState, allow: seq<string>, signals: seq<Signal>, last: Signal)
    ensures Run(s, allow, signals + [last]) == Step(Run(s, allow, signals), allow, last)
    decreases |signals|
  {
    if signals == [] {
      assert [last][1..] == [];
    } else {
      assert (signals + [last])[1..] == signals[1..] + [last];
      RunAppend(Step(s, allow, signals[0]), allow, signals[1..], last);
    }
  }

  /**
   * A completion after a completion-free run leaves the list empty having
   * disposed, in order, what was held plus everything the run subscribed.
   */
  lemma CompletionDisposesEverySubscription(s: ObserverState, allow: seq<string>, signals: seq<Signal>)
    requires Completed !in signals
    ensures Run(s, allow, signals + [Completed]).subscriptions == []
    ensures Run(s, allow, signals + [Completed]).disposed
         == s.disposed + s.subscriptions + Accepted(s.enabled, allow, signals)
  {
    RunAppend(s, allow, signals, Completed);
    RunWithoutCompletion(s, allow, signals);
  }

  /** A second completion disposes nothing more and keeps the list empty. */
  lemma CompletionIsIdempotent(s: ObserverState)
    ensures AfterCompleted(AfterCompleted(s)) == AfterCompleted(s)
    ensures AfterCompleted(s).subscriptions == []
  {
    assert AfterCompleted(s).disposed + [] == AfterCompleted(s).disposed;
  }

  /**
   * Completion is not terminal: an observer that is still enabled subscribes
   * again on the next allowed announcement.
   */
  lemma CompletionIsNotTerminal(s: ObserverState, allow: seq<string>, name: string, handle: Subscription)
    requires s.enabled && name in allow
    ensures Run(s, allow, [Completed, Announced(name, handle)]).subscriptions == [handle]
    ensures Run(s, allow, [Completed, Announced(name, handle)]).disposed == s.disposed + s.subscriptions
  {
    var signals := [Completed, Announced(name, handle)];
    var cleared := AfterCompleted(s);
    var resubscribed := AfterNext(cleared, allow, name, handle);
    assert signals[1..] == [Announced(name, handle)];
    assert [Announced(name, handle)][1..] == [];
    assert Run(resubscribed, allow, []) == resubscribed;
    assert Run(cleared, allow, [Announced(name, handle)]) == resubscribed;
    assert Run(s, allow, signals) == Run(cleared, allow, signals[1..]);
  }

  /** A disabled observer that is never switched on subscribes nothing. */
  lemma {:induction false} DisabledAcceptsNothing(allow: seq<string>, signals: seq<Signal>)
    requires forall i :: 0 <= i < |signals| && signals[i].Toggled? ==> !signals[i].enabled
    ensures Accepted(false, allow, signals) == []
    decreases |signals|
  {
    if signals != [] {
      assert forall i :: 0 <= i < |signals[1..]| ==> signals[1..][i] == signals[i + 1];
      DisabledAcceptsNothing(allow, signals[1..]);
    }
  }

  /** Toggling the flag neither cancels nor adds subscriptions. */
  lemma ToggleKeepsHandles(s: ObserverState, allow: seq<string>, enabled: bool)
    ensures Step(s, allow, Toggled(enabled)).subscriptions == s.subscriptions
    ensures Step(s, allow, Toggled(enabled)).disposed == s.disposed
    ensures Step(s, allow, Toggled(enabled)).enabled == enabled
  {
  }

  /** An error notification is swallowed: the state is unchanged. */
  lemma ErrorChangesNothing(s: ObserverState, allow: seq<string>)
    ensures Step(s, allow, Errored) == s
  {
  }

  class DiagnosticObserverBase {
    /** The sink subscribed to every matching listener (`_observer`). */
    const Observer: SinkRef
    /** The subclass's ShouldListenTo list. */
    const ShouldListenTo: seq<string>
    var IsEnabled: bool
    var Subscriptions: seq<Subscription>
    /** Every handle disposed so far, in order (the effect of `Dispose`). */
    ghost var Disposed: seq<Subscription>

    ghost function State(): ObserverState
      reads this
    {
      ObserverState(IsEnabled, Subscriptions, Disposed)
    }

    constructor (observer: SinkRef, shouldListenTo: seq<string>)
      ensures Observer == observer && ShouldListenTo == shouldListenTo
      ensures State() == ObserverState(false, [], [])
    {
      Observer := observer;
      ShouldListenTo := shouldListenTo;
      IsEnabled := false;
      Subscriptions := [];
      Disposed := [];
    }

    /** The IsEnabled setter. */
    method SetIsEnabled(value: bool)
      modifies this`IsEnabled
      ensures State() == AfterToggle(old(State()), value)
    {
      IsEnabled := value;
    }

    /** OnNext(diagnosticListener): subscribe the sink to an allowed listener while enabled. */
    method OnNext(listener: DiagnosticListener)
      modifies this`Subscriptions, listener`Subscribers
      ensures State() == AfterNext(old(State()), ShouldListenTo, listener.Name, old(listener.NextHandle()))
      ensures listener.Subscribers ==
        if old(IsEnabled) && listener.Name in ShouldListenTo
        then old(listener.Subscribers) + [Observer]
        else old(listener.Subscribers)
    {
      if !IsEnabled {
        return;
      }
      if listener.Name in ShouldListenTo {
        var handle := listener.Subscribe(Observer);
        Subscriptions := Subscriptions + [handle];
      }
    }

    /** `x.Dispose()` on one handle. */
    method Dispose(handle: Subscription)
      modifies this`Disposed
      ensures Disposed == old(Disposed) + [handle]
    {
      Disposed := Disposed + [handle];
    }

    /** OnCompleted: `_subscriptions.ForEach(x => x.Dispose())`, then `Clear()`. */
    method OnCompleted()
      modifies this`Subscriptions, this`Disposed
      ensures State() == AfterCompleted(old(State()))
    {
      for i := 0 to |Subscriptions|
        invariant Subscriptions == old(Subscriptions)
        invariant Disposed == old(Disposed) + Subscriptions[..i]
      {
        Dispose(Subscriptions[i]);
      }
      Subscriptions := [];
    }

    /** OnError: swallowed. */
    method OnError()
      ensures State() == old(State())
    {
    }
  }
}
