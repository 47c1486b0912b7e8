/**
 * The one-call-one-settlement protocol of `awaitableSend`: each call owns a Promise whose
 * first `resolve` or `reject` wins. Transition notifications feed it the classifier's
 * verdict after the optional observer has run; the machine's final-state notification
 * resolves it directly. The listeners are never removed, so a settled call keeps
 * receiving notifications, which can no longer change it.
 */
module AwaitableSend {
  import opened Wrappers
  import opened JsValues
  import opened XState
  import opened Classifier

  /** The state of the Promise a call returns. */
  datatype Settlement =
    | Pending
    | Resolved(value: EventDataAndState)
    | Rejected(reason: ErrorValue)

  /** What awaiting the configured `onTransition` observer produced for one transition. */
  datatype ObserverResult = Fulfilled | Failed(thrown: Data)

  /**
   * The argument of a send: a plain value (a string type tag, or anything else, including
   * objects without a `type` field), or an event object with a `type` field.
   */
  datatype EventArgument =
    | Plain(value: Data)
    | EventObject(typeField: Data, data: Data)

  /** The message of the error a send rejects with when its argument is not an event. */
  const InvalidEventMessage: string :=
    "The arguments to awaitableSend were invalid. " +
    "The event argument must be supplied and must be a string or an event object containing a type property."

  predicate ArgumentTruthy(arg: EventArgument)
  {
    match arg
    case Plain(v) => Truthy(v)
    case EventObject(_, _) => true
  }

  /** `typeof event === "string"`. */
  predicate ArgumentIsString(arg: EventArgument)
  {
    arg.Plain? && arg.value.Text?
  }

  /** `typeof event.type === "string"`; reading `type` off anything but an event object gives `undefined`. */
  predicate TypeFieldIsString(arg: EventArgument)
  {
    arg.EventObject? && arg.typeField.Text?
  }

  /**
   * The guard of a send: `!event || (typeof event !== "string" && event && typeof event.type !== "string")`.
   * It accepts exactly a non-empty string, or an object whose `type` is a string.
   */
  predicate IsInvalidEventArgument(arg: EventArgument)
    ensures !IsInvalidEventArgument(arg) <==>
      (arg.Plain? && arg.value.Text? && arg.value.s != "") ||
      (arg.EventObject? && arg.typeField.Text?)
  {
    !ArgumentTruthy(arg) || (!ArgumentIsString(arg) && ArgumentTruthy(arg) && !TypeFieldIsString(arg))
  }

  /** Promise settlement: the first `resolve` or `reject` wins, later ones are no-ops. */
  function Settle(s: Settlement, attempt: Settlement): (r: Settlement)
    ensures !s.Pending? ==> r == s
    ensures s.Pending? ==> r == attempt
    ensures !attempt.Pending? ==> !r.Pending?
  {
    if s.Pending? then attempt else s
  }

  /** The new settlement after one transition, and the exception that escapes the listener, if any. */
  datatype TransitionResult = TransitionResult(settlement: Settlement, escaped: Option<ErrorValue>)

  /**
   * One run of the transition listener, in the source's order: a failed observer rejects,
   * then the classifier runs regardless; its error rejects, its done value resolves, and
   * a thrown configuration error leaves the listener without touching the Promise.
   */
  function TransitionEffect(types: ActionTypes, options: Options, s: Settlement,
                            state: Snapshot, event: Event, observer: ObserverResult): (r: TransitionResult)
    ensures r.settlement == Settle(s, Proposed(types, options, Transition(state, event, observer)))
    ensures r.escaped.Some? <==> ExtractErrorOrDone(types, state, event, options).Throws?
    ensures r.escaped.Some? ==> r.escaped.value == ExtractErrorOrDone(types, state, event, options).error
  {
    var afterObserver :=
      if options.onTransition && observer.Failed? then Settle(s, Rejected(Raised(observer.thrown))) else s;
    match ExtractErrorOrDone(types, state, event, options)
    case Throws(e) => TransitionResult(afterObserver, Some(e))
    case Returns(Error(e)) => TransitionResult(Settle(afterObserver, Rejected(e)), None)
    case Returns(Done(v)) => TransitionResult(Settle(afterObserver, Resolved(v)), None)
    case Returns(Ignore) => TransitionResult(afterObserver, None)
  }

  /**
   * What can reach a call's Promise: a notification the interpreter delivers to one of
   * its listeners, or an exception that escapes the Promise executor itself (thrown by
   * the interpreter while the listeners are registered or the event is sent and the
   * service started), which `new Promise` turns into a rejection.
   */
  datatype Notification =
    | Transition(state: Snapshot, event: Event, observer: ObserverResult)
    | MachineDone(current: Snapshot, doneEvent: Event)
    | ExecutorThrew(thrown: Data)

  /**
   * What a notification would settle a still pending call with, `Pending` when nothing:
   * an observer failure, otherwise the classifier's error or done verdict, and for the
   * machine's final state the current snapshot with the done event's data; an exception
   * out of the executor proposes a rejection with what was thrown.
   */
  function Proposed(types: ActionTypes, options: Options, n: Notification): (r: Settlement)
    ensures n.MachineDone? ==> r.Resolved? && r.value.state.of == n.current && r.value.data == n.doneEvent.data
    ensures n.ExecutorThrew? ==> r == Rejected(Raised(n.thrown))
    ensures n.Transition? && options.onTransition && n.observer.Failed? ==> r == Rejected(Raised(n.observer.thrown))
    ensures n.Transition? && !(options.onTransition && n.observer.Failed?) ==>
      var o := ExtractErrorOrDone(types, n.state, n.event, options);
      (r == Pending <==> o.Throws? || o == Returns(Ignore)) &&
      (r.Resolved? ==> o == Returns(Done(r.value))) &&
      (r.Rejected? ==> o == Returns(Error(r.reason)))
  {
    match n
    case Transition(state, event, observer) =>
      if options.onTransition && observer.Failed? then Rejected(Raised(observer.thrown))
      else (match ExtractErrorOrDone(types, state, event, options)
            case Returns(Error(e)) => Rejected(e)
            case Returns(Done(v)) => Resolved(v)
            case _ => Pending)
    case MachineDone(current, doneEvent) => Resolved(GetEventDataAndState(current, doneEvent))
    case ExecutorThrew(thrown) => Rejected(Raised(thrown))
  }

  /**
   * The effect of one notification on the Promise. Within one transition the observer's
   * rejection comes first, so every notification acts as a single settlement attempt
   * with what it proposes.
   */
  function Step(types: ActionTypes, options: Options, s: Settlement, n: Notification): (r: Settlement)
    ensures r == Settle(s, Proposed(types, options, n))
  {
    match n
    case Transition(state, event, observer) => TransitionEffect(types, options, s, state, event, observer).settlement
    case MachineDone(current, doneEvent) => Settle(s, Resolved(GetEventDataAndState(current, doneEvent)))
    case ExecutorThrew(thrown) => Settle(s, Rejected(Raised(thrown)))
  }

  /**
   * The Promise after the notifications of `trace`, delivered in order. A settled Promise
   * never changes again, whatever is delivered afterwards.
   */
  function Run(types: ActionTypes, options: Options, s: Settlement, trace: seq<Notification>): (r: Settlement)
    ensures !s.Pending? ==> r == s
    decreases |trace|
  {
    if trace == [] then s else Run(types, options, Step(types, options, s, trace[0]), trace[1..])
  }

  /** A failed observer rejects a pending call with what it threw, whatever the verdict; the classifier still runs. */
  lemma ObserverFailureRejects(types: ActionTypes, options: Options, state: Snapshot, event: Event, thrown: Data)
    requires options.onTransition
    ensures var r := TransitionEffect(types, options, Pending, state, event, Failed(thrown));
      r.settlement == Rejected(Raised(thrown)) &&
      (r.escaped.Some? <==> ExtractErrorOrDone(types, state, event, options).Throws?)
  {
  }

  /**
   * A `waitUntil` predicate that throws leaves the Promise to the observer alone: the
   * exception escapes the listener, like the configuration error of a non-string id.
   */
  lemma PredicateThrowEscapes(types: ActionTypes, options: Options, s: Settlement, state: Snapshot, event: Event,
                              observer: ObserverResult, thrown: Data)
    requires options.waitUntil.UntilPredicate? && options.waitUntil.test(state, event) == Threw(thrown)
    requires event.eventType != types.init && !IsErrorEvent(types, event.eventType)
    ensures var r := TransitionEffect(types, options, s, state, event, observer);
      r.escaped == Some(Raised(thrown)) &&
      r.settlement == if options.onTransition && observer.Failed? then Settle(s, Rejected(Raised(observer.thrown))) else s
  {
  }

  /** Delivering `a` and then `b` is delivering `a + b`. */
  lemma {:induction false} RunAppend(types: ActionTypes, options: Options, s: Settlement,
                                     a: seq<Notification>, b: seq<Notification>)
    ensures Run(types, options, s, a + b) == Run(types, options, Run(types, options, s, a), b)
    decreases |a|
  {
    if a != [] {
      assert (a + b)[1..] == a[1..] + b;
      RunAppend(types, options, Step(types, options, s, a[0]), a[1..], b);
    } else {
      assert a + b == b;
    }
  }

  /** A call stays pending exactly when no notification delivered to it proposes a settlement. */
  lemma {:induction false} PendingUntilProposal(types: ActionTypes, options: Options, trace: seq<Notification>)
    ensures Run(types, options, Pending, trace) == Pending <==>
      forall i :: 0 <= i < |trace| ==> Proposed(types, options, trace[i]) == Pending
    decreases |trace|
  {
    if trace != [] {
      var first := Proposed(types, options, trace[0]);
      if first == Pending {
        PendingUntilProposal(types, options, trace[1..]);
        assert forall i :: 1 <= i < |trace| ==> trace[i] == trace[1..][i - 1];
      }
    }
  }

  /** The first notification that proposes a settlement decides the call. */
  lemma {:induction false} FirstProposalWins(types: ActionTypes, options: Options, trace: seq<Notification>, k: nat)
    requires k < |trace|
    requires forall j :: 0 <= j < k ==> Proposed(types, options, trace[j]) == Pending
    requires Proposed(types, options, trace[k]) != Pending
    ensures Run(types, options, Pending, trace) == Proposed(types, options, trace[k])
    decreases k
  {
    if k != 0 {
      assert forall j :: 0 <= j < k - 1 ==> trace[1..][j] == trace[j + 1];
      FirstProposalWins(types, options, trace[1..], k - 1);
    }
  }

  /** Notifications that propose nothing, followed by one that does: that one decides the call. */
  lemma DecidedAfterWaiting(types: ActionTypes, options: Options, waiting: seq<Notification>,
                            decisive: Notification, rest: seq<Notification>)
    requires forall n :: n in waiting ==> Proposed(types, options, n) == Pending
    requires Proposed(types, options, decisive) != Pending
    ensures Run(types, options, Pending, waiting + [decisive] + rest) == Proposed(types, options, decisive)
    ensures rest == [] ==> Run(types, options, Pending, waiting + [decisive]) == Proposed(types, options, decisive)
  {
    var trace := waiting + [decisive] + rest;
    if rest == [] {
      assert trace == waiting + [decisive];
    }
    assert trace[|waiting|] == decisive;
    assert forall j :: 0 <= j < |waiting| ==> trace[j] == waiting[j];
    FirstProposalWins(types, options, trace, |waiting|);
  }

  /** Once a prefix of the notifications has settled the call, the rest change nothing. */
  lemma SettlesAtMostOnce(types: ActionTypes, options: Options, trace: seq<Notification>, k: nat)
    requires k <= |trace|
    requires Run(types, options, Pending, trace[..k]) != Pending
    ensures Run(types, options, Pending, trace) == Run(types, options, Pending, trace[..k])
  {
    assert trace == trace[..k] + trace[k..];
    RunAppend(types, options, Pending, trace[..k], trace[k..]);
  }

  /**
   * With an object `waitUntil` whose id is not a string, no transition can resolve the
   * call: the check throws inside the listener on every transition that is neither the
   * init marker nor an error event. Only the final-state notification can resolve it.
   */
  lemma {:induction false} NonStringIdNeverResolvesByTransition(types: ActionTypes, options: Options,
                                                                s: Settlement, trace: seq<Notification>)
    requires options.waitUntil.UntilDone? && !options.waitUntil.id.Text?
    requires forall i :: 0 <= i < |trace| ==> trace[i].Transition?
    requires !s.Resolved?
    ensures !Run(types, options, s, trace).Resolved?
    decreases |trace|
  {
    if trace != [] {
      assert forall i :: 0 <= i < |trace| - 1 ==> trace[1..][i] == trace[i + 1];
      NonStringIdNeverResolvesByTransition(types, options, Step(types, options, s, trace[0]), trace[1..]);
    }
  }

  /**
   * One call of `awaitableSend`: the Promise it returned, and the notifications its
   * listeners have received so far. The executor's `resolve` and `reject` are private to
   * the call and only its two listeners use them, so here they are `Settle` assignments
   * inside `OnTransition` and `OnDone`.
   */
  class PendingSend {
    const types: ActionTypes
    const options: Options
    /** Whether the listeners were registered; not when the argument was rejected up front. */
    const listening: bool
    /** The Promise's state. */
    var settlement: Settlement
    /** The notifications delivered to this call's listeners, oldest first. */
    ghost var delivered: seq<Notification>

    /** The Promise's state before any notification. */
    function Initial(): Settlement
      reads this
    {
      if listening then Pending else Rejected(NewError(Text(InvalidEventMessage)))
    }

    /** The Promise is what the delivered notifications made of its initial state. */
    ghost predicate Valid()
      reads this
    {
      settlement == Run(types, options, Initial(), delivered) &&
      (!listening ==> delivered == [])
    }

    /**
     * A send of `event`: an argument that is not an event rejects the Promise before any
     * listener is registered or anything is sent to the interpreter.
     */
    constructor (types: ActionTypes, options: Options, event: EventArgument)
      ensures Valid()
      ensures this.types == types && this.options == options
      ensures listening == !IsInvalidEventArgument(event)
      ensures settlement == if listening then Pending else Rejected(NewError(Text(InvalidEventMessage)))
      ensures delivered == []
    {
      this.types := types;
      this.options := options;
      if IsInvalidEventArgument(event) {
        listening := false;
        settlement := Rejected(NewError(Text(InvalidEventMessage)));
      } else {
        listening := true;
        settlement := Pending;
      }
      delivered := [];
    }

    /**
     * The transition listener, given what the observer produced. Returns the exception
     * that escapes the listener, which the Promise never sees.
     */
    method OnTransition(state: Snapshot, event: Event, observer: ObserverResult) returns (escaped: Option<ErrorValue>)
      requires Valid() && listening
      modifies this`settlement, this`delivered
      ensures Valid()
      ensures delivered == old(delivered) + [Transition(state, event, observer)]
      ensures TransitionResult(settlement, escaped) ==
              TransitionEffect(types, options, old(settlement), state, event, observer)
    {
      if options.onTransition && observer.Failed? {
        settlement := Settle(settlement, Rejected(Raised(observer.thrown)));
      }
      var result := ExtractErrorOrDone(types, state, event, options);
      escaped := None;
      match result {
        case Throws(e) =>
          escaped := Some(e);
        case Returns(Error(e)) =>
          settlement := Settle(settlement, Rejected(e));
        case Returns(Done(v)) =>
          settlement := Settle(settlement, Resolved(v));
        case Returns(Ignore) =>
      }
      RunAppend(types, options, Initial(), delivered, [Transition(state, event, observer)]);
      delivered := delivered + [Transition(state, event, observer)];
    }

    /** The final-state listener: resolves with the interpreter's current snapshot and the done event's data. */
    method OnDone(current: Snapshot, doneEvent: Event)
      requires Valid() && listening
      modifies this`settlement, this`delivered
      ensures Valid()
      ensures delivered == old(delivered) + [MachineDone(current, doneEvent)]
      ensures settlement == Settle(old(settlement), Resolved(GetEventDataAndState(current, doneEvent)))
    {
      settlement := Settle(settlement, Resolved(GetEventDataAndState(current, doneEvent)));
      RunAppend(types, options, Initial(), delivered, [MachineDone(current, doneEvent)]);
      delivered := delivered + [MachineDone(current, doneEvent)];
    }

    /**
     * An exception out of the executor's own calls into the interpreter (`onTransition`,
     * `onDone`, `send`, `start`): the Promise constructor rejects with it, first settlement
     * winning, so a call its listeners have already settled during `send` is unchanged.
     */
    method OnExecutorThrow(thrown: Data)
      requires Valid() && listening
      modifies this`settlement, this`delivered
      ensures Valid()
      ensures delivered == old(delivered) + [ExecutorThrew(thrown)]
      ensures settlement == Settle(old(settlement), Rejected(Raised(thrown)))
    {
      settlement := Settle(settlement, Rejected(Raised(thrown)));
      RunAppend(types, options, Initial(), delivered, [ExecutorThrew(thrown)]);
      delivered := delivered + [ExecutorThrew(thrown)];
    }
  }
}
