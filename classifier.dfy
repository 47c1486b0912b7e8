/**
 * The completion classifier: given one transition (the snapshot and the event that
 * produced it) and the caller's options, decide whether the pending send keeps waiting,
 * resolves, or rejects.
 */
module Classifier {
  import opened JsValues
  import opened XState

  /**
   * The `waitUntil` option. `UntilDone` is the object form `{ id, type }`: `id` should be
   * a string and `kind` is the optional `type` field (`Undefined` when absent). Any falsy
   * `waitUntil` is `NoWaitUntil`. `UntilPredicate` is the function form; the model knows
   * nothing of the predicate beyond what each call of it returns or throws.
   */
  datatype WaitUntil =
    | NoWaitUntil
    | UntilDone(id: Data, kind: Data)
    | UntilPredicate(test: (Snapshot, Event) -> CallResult)

  /** What one call of caller code produced: a returned value, or a thrown one. */
  datatype CallResult = Returned(value: Data) | Threw(thrown: Data)

  /** The options of `createAwaitableSend`; `onTransition` says whether an observer is configured. */
  datatype Options = Options(waitUntil: WaitUntil, onTransition: bool)

  /** The tuple a send resolves with: the serialised snapshot and the event's `data`. */
  datatype EventDataAndState = EventDataAndState(state: Json, data: Data)

  /** The three verdicts of the classifier. */
  datatype Verdict =
    | Ignore
    | Done(value: EventDataAndState)
    | Error(error: ErrorValue)

  /** The classifier either returns a verdict or throws a configuration error. */
  datatype Outcome =
    | Returns(verdict: Verdict)
    | Throws(error: ErrorValue)

  /** The message of the error thrown for an object-form `waitUntil` without a string id. */
  const WaitUntilIdMessage: string :=
    "The arguments to createAwaitableSend were invalid." +
    "`options.waitFor` must contain a string id."

  /** `s.startsWith(prefix)`. */
  predicate StartsWith(s: string, prefix: string)
  {
    prefix <= s
  }

  /** `s.filter(keep)`: the elements of `s` that satisfy `keep`, in their order. */
  function Filter(s: seq<string>, keep: string -> bool): (r: seq<string>)
    ensures |r| <= |s|
    ensures forall x :: x in r <==> x in s && keep(x)
  {
    if s == [] then []
    else (if keep(s[0]) then [s[0]] else []) + Filter(s[1..], keep)
  }

  /** `getEventDataAndState`: pairs the serialised snapshot with the event's payload. */
  function GetEventDataAndState(state: Snapshot, event: Event): (r: EventDataAndState)
    ensures r.state.of == state && r.data == event.data
  {
    EventDataAndState(Json(state), event.data)
  }

  /**
   * `isInternalEvent`: the type is `NullEvent` itself, or starts with one of the other
   * reserved action types. `NullEvent` is compared by equality only.
   */
  predicate IsInternalEvent(types: ActionTypes, eventType: string)
    ensures eventType == types.nullEvent ==> IsInternalEvent(types, eventType)
    ensures StartsWith(eventType, types.init) ==> IsInternalEvent(types, eventType)
    ensures StartsWith(eventType, types.doneInvoke) || StartsWith(eventType, types.doneState) ==>
      IsInternalEvent(types, eventType)
  {
    eventType == types.nullEvent ||
    exists prefix :: prefix in OtherActionTypes(types) && StartsWith(eventType, prefix)
  }

  /** The type starts with one of the four error-event prefixes (SCXML section 5.10.1, "Errors"). */
  predicate IsErrorEvent(types: ActionTypes, eventType: string)
    ensures IsErrorEvent(types, eventType) ==> IsInternalEvent(types, eventType)
  {
    StartsWith(eventType, types.errorPlatform) ||
    StartsWith(eventType, types.errorCommunication) ||
    StartsWith(eventType, types.errorExecution) ||
    StartsWith(eventType, types.errorCustom)
  }

  /** `event.data instanceof Error ? event.data : new Error(event.data)`. */
  function AsError(data: Data): (e: ErrorValue)
    ensures e.Raised? <==> data.ErrorInstance?
    ensures e.Raised? ==> e.value == data
    ensures e.NewError? ==> e.message == data
  {
    if data.ErrorInstance? then Raised(data) else NewError(data)
  }

  /** The done-event prefix a `waitUntil` discriminator selects. */
  function DoneType(types: ActionTypes, kind: Data): (r: string)
    ensures kind == Undefined || kind == Text("invoke") ==> r == types.doneInvoke
    ensures kind != Undefined && kind != Text("invoke") ==> r == types.doneState
    ensures r in OtherActionTypes(types)
  {
    if kind == Undefined || kind == Text("invoke") then types.doneInvoke else types.doneState
  }

  /** The internal members of `nextEvents`. */
  function InternalNextEvents(types: ActionTypes, nextEvents: seq<string>): (r: seq<string>)
    ensures forall e :: e in r <==> e in nextEvents && IsInternalEvent(types, e)
  {
    Filter(nextEvents, (e: string) => IsInternalEvent(types, e))
  }

  /** The consumer members of `nextEvents` other than the current event type. */
  function ConsumerNextEvents(types: ActionTypes, nextEvents: seq<string>, current: string): (r: seq<string>)
    ensures forall e :: e in r <==> e in nextEvents && e != current && !IsInternalEvent(types, e)
  {
    Filter(nextEvents, (e: string) => e != current && !IsInternalEvent(types, e))
  }

  /**
   * The resting-state condition, stated over the elements of `nextEvents`: none at all,
   * or some consumer event other than the current one and no internal event.
   */
  predicate RestingPoint(types: ActionTypes, nextEvents: seq<string>, current: string)
  {
    nextEvents == [] ||
    ((exists e :: e in nextEvents && e != current && !IsInternalEvent(types, e)) &&
     (forall e :: e in nextEvents ==> !IsInternalEvent(types, e)))
  }

  /**
   * `extractErrorOrDone`. The contract is the decision table, first match wins: the init
   * marker is ignored; an error event rejects; an object `waitUntil` throws without a
   * string id, and otherwise resolves exactly on `<done prefix>.<id>`; a predicate
   * `waitUntil` resolves exactly when it returns a truthy value, and what it throws
   * propagates; without `waitUntil` the snapshot resolves
   * exactly at a resting point. Every `Done` carries the snapshot and the event's data.
   */
  function ExtractErrorOrDone(types: ActionTypes, state: Snapshot, event: Event, options: Options): (r: Outcome)
    ensures event.eventType == types.init ==> r == Returns(Ignore)
    ensures event.eventType != types.init && IsErrorEvent(types, event.eventType) ==>
      r == Returns(Error(AsError(event.data)))
    ensures r.Returns? && r.verdict.Error? <==>
      event.eventType != types.init && IsErrorEvent(types, event.eventType)
    ensures r.Throws? <==>
      event.eventType != types.init && !IsErrorEvent(types, event.eventType) &&
      ((options.waitUntil.UntilDone? && !options.waitUntil.id.Text?) ||
       (options.waitUntil.UntilPredicate? && options.waitUntil.test(state, event).Threw?))
    ensures r.Throws? && options.waitUntil.UntilDone? ==> r.error == NewError(Text(WaitUntilIdMessage))
    ensures r.Throws? && options.waitUntil.UntilPredicate? ==>
      r.error == Raised(options.waitUntil.test(state, event).thrown)
    ensures r.Returns? && r.verdict.Done? ==> r.verdict.value == GetEventDataAndState(state, event)
    ensures event.eventType != types.init && !IsErrorEvent(types, event.eventType) ==>
      match options.waitUntil
      case UntilDone(id, kind) =>
        id.Text? ==>
          (r == Returns(Done(GetEventDataAndState(state, event))) <==> event.eventType == DoneType(types, kind) + "." + id.s) &&
          (r == Returns(Ignore) <==> event.eventType != DoneType(types, kind) + "." + id.s)
      case UntilPredicate(test) =>
        var c := test(state, event);
        (r == Returns(Done(GetEventDataAndState(state, event))) <==> c.Returned? && Truthy(c.value)) &&
        (r == Returns(Ignore) <==> c.Returned? && !Truthy(c.value))
      case NoWaitUntil =>
        (r == Returns(Done(GetEventDataAndState(state, event))) <==> RestingPoint(types, state.nextEvents, event.eventType)) &&
        (r == Returns(Ignore) <==> !RestingPoint(types, state.nextEvents, event.eventType))
  {
    var eventType := event.eventType;
    if eventType == types.init then
      Returns(Ignore)
    else if IsErrorEvent(types, eventType) then
      Returns(Error(AsError(event.data)))
    else if !options.waitUntil.NoWaitUntil? then
      match options.waitUntil
      case UntilDone(id, kind) =>
        if !id.Text? then
          Throws(NewError(Text(WaitUntilIdMessage)))
        else
          var doneType := DoneType(types, kind);
          if StartsWith(eventType, doneType) && eventType == doneType + "." + id.s then
            Returns(Done(GetEventDataAndState(state, event)))
          else
            Returns(Ignore)
      case UntilPredicate(test) =>
        match test(state, event)
        case Threw(thrown) => Throws(Raised(thrown))
        case Returned(value) =>
          if Truthy(value) then Returns(Done(GetEventDataAndState(state, event))) else Returns(Ignore)
    else
      var nextEvents := state.nextEvents;
      var internalNextEvents := InternalNextEvents(types, nextEvents);
      var consumerNextEvents := ConsumerNextEvents(types, nextEvents, eventType);
      RestingFromFilters(types, nextEvents, eventType);
      if |nextEvents| == 0 || (|consumerNextEvents| > 0 && |internalNextEvents| == 0) then
        Returns(Done(GetEventDataAndState(state, event)))
      else
        Returns(Ignore)
  }

  /** A sequence is non-empty exactly when it has a member. */
  lemma NonEmptyHasMember(s: seq<string>)
    ensures |s| > 0 <==> exists x :: x in s
  {
    if |s| > 0 {
      assert s[0] in s;
    }
  }

  /** The filter-length test of the source agrees with the element-wise resting condition. */
  lemma RestingFromFilters(types: ActionTypes, nextEvents: seq<string>, current: string)
    ensures (|nextEvents| == 0 ||
             (|ConsumerNextEvents(types, nextEvents, current)| > 0 && |InternalNextEvents(types, nextEvents)| == 0))
            <==> RestingPoint(types, nextEvents, current)
  {
    NonEmptyHasMember(ConsumerNextEvents(types, nextEvents, current));
    NonEmptyHasMember(InternalNextEvents(types, nextEvents));
  }

  /**
   * With an object `waitUntil` the snapshot plays no part in the decision: two snapshots
   * of the same event give the same kind of outcome, whatever their `nextEvents`.
   */
  lemma WaitUntilIdIgnoresSnapshot(types: ActionTypes, s1: Snapshot, s2: Snapshot, event: Event, id: Data, kind: Data)
    ensures var o := Options(UntilDone(id, kind), false);
      var r1 := ExtractErrorOrDone(types, s1, event, o);
      var r2 := ExtractErrorOrDone(types, s2, event, o);
      (r1 == Returns(Ignore) <==> r2 == Returns(Ignore)) &&
      (r1.Throws? <==> r2.Throws?) &&
      (r1.Returns? && r1.verdict.Done? <==> r2.Returns? && r2.verdict.Done?)
  {
  }

  /**
   * A `waitUntil` of either form overrides resting-state detection: a non-matching event
   * is ignored even where the snapshot is at a resting point.
   */
  lemma WaitUntilOverridesResting(types: ActionTypes, state: Snapshot, event: Event, options: Options)
    requires !options.waitUntil.NoWaitUntil?
    requires event.eventType != types.init && !IsErrorEvent(types, event.eventType)
    requires options.waitUntil.UntilDone? ==>
      options.waitUntil.id.Text? &&
      event.eventType != DoneType(types, options.waitUntil.kind) + "." + options.waitUntil.id.s
    requires options.waitUntil.UntilPredicate? ==>
      options.waitUntil.test(state, event).Returned? && !Truthy(options.waitUntil.test(state, event).value)
    ensures ExtractErrorOrDone(types, state, event, options) == Returns(Ignore)
  {
  }

  /**
   * A snapshot whose only next events are the type just handled is not resting: with no
   * `waitUntil`, that transition is ignored.
   */
  lemma OnlyCurrentEventIsIgnored(types: ActionTypes, state: Snapshot, event: Event, options: Options)
    requires options.waitUntil.NoWaitUntil?
    requires state.nextEvents != []
    requires forall e :: e in state.nextEvents ==> e == event.eventType
    requires event.eventType != types.init && !IsErrorEvent(types, event.eventType)
    ensures ExtractErrorOrDone(types, state, event, options) == Returns(Ignore)
  {
  }

  /** With no `waitUntil`, a pending internal next event always keeps the send waiting. */
  lemma PendingInternalEventIsIgnored(types: ActionTypes, state: Snapshot, event: Event, options: Options,
                                      internal: string)
    requires options.waitUntil.NoWaitUntil?
    requires internal in state.nextEvents && IsInternalEvent(types, internal)
    requires event.eventType != types.init && !IsErrorEvent(types, event.eventType)
    ensures ExtractErrorOrDone(types, state, event, options) == Returns(Ignore)
  {
  }
}
