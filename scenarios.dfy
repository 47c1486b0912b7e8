/**
 * The behaviour the repository's tests expect, replayed on the model with xstate
 * version 4's reserved event types. Each trace starts with the init transition that
 * starting the interpreter produces, followed by the transitions the machine takes.
 */
module Scenarios {
  import opened JsValues
  import opened XState
  import opened Classifier
  import opened AwaitableSend

  const NoOptions: Options := Options(NoWaitUntil, false)

  /** A prefix shares the first character of what it prefixes. */
  lemma FirstCharacterDecidesPrefix(eventType: string, prefix: string)
    requires eventType != [] && prefix != [] && eventType[0] != prefix[0]
    ensures !StartsWith(eventType, prefix)
  {
  }

  /** Every reserved type other than `NullEvent` starts with a lower-case letter. */
  lemma ReservedTypesStartLowerCase()
    ensures forall prefix :: prefix in OtherActionTypes(V4) ==> prefix != [] && 'a' <= prefix[0] <= 'z'
  {
  }

  /** Application event types such as `START`, `SELECT` and `BACK` are consumer events. */
  lemma UpperCaseTypesAreConsumerEvents(eventType: string)
    requires eventType != [] && 'A' <= eventType[0] <= 'Z'
    ensures !IsInternalEvent(V4, eventType)
  {
    ReservedTypesStartLowerCase();
    forall prefix | prefix in OtherActionTypes(V4)
      ensures !StartsWith(eventType, prefix)
    {
      FirstCharacterDecidesPrefix(eventType, prefix);
    }
  }

  /** The error prefixes of xstate version 4 start with `e` or `x`. */
  lemma NotAnErrorEvent(eventType: string)
    requires eventType != [] && eventType[0] != 'e' && eventType[0] != 'x'
    ensures !IsErrorEvent(V4, eventType)
  {
    FirstCharacterDecidesPrefix(eventType, V4.errorPlatform);
    FirstCharacterDecidesPrefix(eventType, V4.errorCommunication);
    FirstCharacterDecidesPrefix(eventType, V4.errorExecution);
    FirstCharacterDecidesPrefix(eventType, V4.errorCustom);
  }

  /** `done.invoke.<id>`: the event an invoked service's completion produces. */
  function DoneInvoke(id: string): (eventType: string)
  {
    V4.doneInvoke + "." + id
  }

  /** `error.platform.<id>`: the event an invoked service's failure produces. */
  function ErrorPlatform(id: string): (eventType: string)
  {
    V4.errorPlatform + "." + id
  }

  /** The done and error events of an invoked service are internal; only the latter is an error event. */
  lemma InvocationEvents(id: string)
    ensures IsInternalEvent(V4, DoneInvoke(id)) && IsInternalEvent(V4, ErrorPlatform(id))
    ensures !IsErrorEvent(V4, DoneInvoke(id)) && IsErrorEvent(V4, ErrorPlatform(id))
    ensures DoneInvoke(id) != V4.init && ErrorPlatform(id) != V4.init
    ensures DoneInvoke(id)[0] == 'd' && ErrorPlatform(id)[0] == 'e'
  {
    var done, error := DoneInvoke(id), ErrorPlatform(id);
    assert V4.doneInvoke <= done by {
      assert done[..|V4.doneInvoke|] == V4.doneInvoke;
    }
    assert V4.errorPlatform <= error by {
      assert error[..|V4.errorPlatform|] == V4.errorPlatform;
    }
    assert done[0] == 'd' && error[0] == 'e' && V4.init[0] == 'x';
    NotAnErrorEvent(done);
  }

  /**
   * Without the init filter the very first transition would resolve: the initial state
   * offers `START`, a consumer event other than `xstate.init`, and nothing internal.
   */
  lemma InitTransitionLooksResting()
    ensures RestingPoint(V4, ["START"], V4.init)
    ensures ExtractErrorOrDone(V4, Snapshot("initial", Object(0), ["START"]), Event(V4.init, Undefined), NoOptions)
            == Returns(Ignore)
  {
    UpperCaseTypesAreConsumerEvents("START");
    assert "START" in ["START"];
  }

  /** The init transition that starting the interpreter produces. */
  function InitTransition(context: Data): (n: Notification)
  {
    Transition(Snapshot("initial", context, ["START"]), Event(V4.init, Undefined), Fulfilled)
  }

  /** The init transition proposes nothing, whatever the options. */
  lemma InitTransitionProposesNothing(options: Options, context: Data)
    ensures Proposed(V4, options, InitTransition(context)) == Pending
  {
  }

  /** After the init transition, a send of `START` resolves at a snapshot that is resting. */
  lemma RestingAfterStart(target: Snapshot, context: Data)
    requires RestingPoint(V4, target.nextEvents, "START")
    ensures Run(V4, NoOptions, Pending, [InitTransition(context), Transition(target, Event("START", Undefined), Fulfilled)])
            == Resolved(EventDataAndState(Json(target), Undefined))
  {
    var trace := [InitTransition(context), Transition(target, Event("START", Undefined), Fulfilled)];
    NotAnErrorEvent("START");
    InitTransitionProposesNothing(NoOptions, context);
    FirstProposalWins(V4, NoOptions, trace, 1);
  }

  /** A state offering only `SELECT` and `BACK` is a resting point, so the send resolves there. */
  lemma PenultimateResolves()
    ensures var penultimate := Snapshot("penultimate", Object(0), ["SELECT", "BACK"]);
      Run(V4, NoOptions, Pending, [InitTransition(Object(0)), Transition(penultimate, Event("START", Undefined), Fulfilled)])
      == Resolved(EventDataAndState(Json(penultimate), Undefined))
  {
    var nextEvents := ["SELECT", "BACK"];
    UpperCaseTypesAreConsumerEvents("SELECT");
    UpperCaseTypesAreConsumerEvents("BACK");
    assert "SELECT" in nextEvents;
    assert forall e :: e in nextEvents ==> e == "SELECT" || e == "BACK";
    RestingAfterStart(Snapshot("penultimate", Object(0), nextEvents), Object(0));
  }

  /** A state with no next events at all resolves the send (the `empty` and `finality` targets). */
  lemma NoExitResolves(value: string)
    ensures var target := Snapshot(value, Object(0), []);
      Run(V4, NoOptions, Pending, [InitTransition(Object(0)), Transition(target, Event("START", Undefined), Fulfilled)])
      == Resolved(EventDataAndState(Json(target), Undefined))
  {
    RestingAfterStart(Snapshot(value, Object(0), []), Object(0));
  }

  /** A state waiting on an invoked service is not resting: the service's done event is pending. */
  lemma InvocationKeepsWaiting(state: Snapshot, event: Event, id: string)
    requires DoneInvoke(id) in state.nextEvents
    requires event.eventType != V4.init && !IsErrorEvent(V4, event.eventType)
    ensures Proposed(V4, NoOptions, Transition(state, event, Fulfilled)) == Pending
  {
    InvocationEvents(id);
    PendingInternalEventIsIgnored(V4, state, event, NoOptions, DoneInvoke(id));
  }

  /**
   * The states of the sequential machine; its services have an `onDone` transition only.
   * They are invoked without an `id`, so xstate version 4 names each invocation after its
   * state node: `<state node id>:invocation[0]`.
   */
  const GettingUserId: string := "sequential-async-machine.gettingUser:invocation[0]"
  const GettingFriendsId: string := "sequential-async-machine.gettingFriends:invocation[0]"
  const GettingUser: Snapshot := Snapshot("gettingUser", Object(0), [DoneInvoke(GettingUserId)])
  const GettingFriends: Snapshot := Snapshot("gettingFriends", Object(1), [DoneInvoke(GettingFriendsId)])
  const Success: Snapshot := Snapshot("success", Object(2), [])

  /** The sequential machine: two invoked services, then the final state `success`. */
  function SequentialSteps(user: Data, friends: Data): (trace: seq<Notification>)
  {
    [InitTransition(Object(0)),
     Transition(GettingUser, Event("START", Undefined), Fulfilled),
     Transition(GettingFriends, Event(DoneInvoke(GettingUserId), user), Fulfilled)] +
    [Transition(Success, Event(DoneInvoke(GettingFriendsId), friends), Fulfilled)] +
    [MachineDone(Success, Event(DoneInvoke("sequential-async-machine"), Undefined))]
  }

  /**
   * The sequential machine waits through both invoked services and resolves in `success`
   * with the friends the second service produced; the final-state notification that
   * follows changes nothing.
   */
  lemma SequentialStepsResolveAtSuccess(user: Data, friends: Data)
    ensures Run(V4, NoOptions, Pending, SequentialSteps(user, friends))
            == Resolved(EventDataAndState(Json(Success), friends))
  {
    InitTransitionProposesNothing(NoOptions, Object(0));
    GettingUserWaits();
    GettingFriendsWaits(user);
    SuccessResolves(friends);
    DecidedAfterWaiting(V4, NoOptions,
      [InitTransition(Object(0)),
       Transition(GettingUser, Event("START", Undefined), Fulfilled),
       Transition(GettingFriends, Event(DoneInvoke(GettingUserId), user), Fulfilled)],
      Transition(Success, Event(DoneInvoke(GettingFriendsId), friends), Fulfilled),
      [MachineDone(Success, Event(DoneInvoke("sequential-async-machine"), Undefined))]);
  }

  lemma GettingUserWaits()
    ensures Proposed(V4, NoOptions, Transition(GettingUser, Event("START", Undefined), Fulfilled)) == Pending
  {
    NotAnErrorEvent("START");
    InvocationKeepsWaiting(GettingUser, Event("START", Undefined), GettingUserId);
  }

  lemma GettingFriendsWaits(user: Data)
    ensures Proposed(V4, NoOptions, Transition(GettingFriends, Event(DoneInvoke(GettingUserId), user), Fulfilled))
            == Pending
  {
    InvocationEvents(GettingUserId);
    InvocationKeepsWaiting(GettingFriends, Event(DoneInvoke(GettingUserId), user), GettingFriendsId);
  }

  lemma SuccessResolves(friends: Data)
    ensures Proposed(V4, NoOptions, Transition(Success, Event(DoneInvoke(GettingFriendsId), friends), Fulfilled))
            == Resolved(EventDataAndState(Json(Success), friends))
  {
    InvocationEvents(GettingFriendsId);
  }

  /** The states of the machine with an error on a later step; its services have `onDone` and `onError`. */
  const StartedState: Snapshot := Snapshot("started", Object(0), [DoneInvoke("invoker-1"), ErrorPlatform("invoker-1")])
  const Invoker1Succeeded: Snapshot :=
    Snapshot("invoker1Succeeded", Object(0), [DoneInvoke("invoker-2"), ErrorPlatform("invoker-2")])
  const Invoker2Errored: Snapshot := Snapshot("invoker2Errored", Object(0), [])

  /** The machine whose first service resolves with `Hello World!` and whose second rejects with `failure`. */
  function ErrorOnLaterStep(failure: Data): (trace: seq<Notification>)
  {
    UpToSecondService() + [Transition(Invoker2Errored, Event(ErrorPlatform("invoker-2"), failure), Fulfilled)]
  }

  /** The transitions of that machine before its second service settles. */
  function UpToSecondService(): (trace: seq<Notification>)
  {
    [InitTransition(Object(0)),
     Transition(StartedState, Event("START", Undefined), Fulfilled),
     Transition(Invoker1Succeeded, Event(DoneInvoke("invoker-1"), Text("Hello World!")), Fulfilled)]
  }

  /** Without `waitUntil`, nothing before the second service settles proposes a settlement. */
  lemma UpToSecondServiceWaits()
    ensures forall n :: n in UpToSecondService() ==> Proposed(V4, NoOptions, n) == Pending
  {
    InitTransitionProposesNothing(NoOptions, Object(0));
    StartedWaits();
    Invoker1SucceededWaits();
  }

  lemma StartedWaits()
    ensures Proposed(V4, NoOptions, Transition(StartedState, Event("START", Undefined), Fulfilled)) == Pending
  {
    NotAnErrorEvent("START");
    InvocationKeepsWaiting(StartedState, Event("START", Undefined), "invoker-1");
  }

  lemma Invoker1SucceededWaits()
    ensures Proposed(V4, NoOptions,
                     Transition(Invoker1Succeeded, Event(DoneInvoke("invoker-1"), Text("Hello World!")), Fulfilled))
            == Pending
  {
    InvocationEvents("invoker-1");
    InvocationKeepsWaiting(Invoker1Succeeded, Event(DoneInvoke("invoker-1"), Text("Hello World!")), "invoker-2");
  }

  lemma Invoker2ErrorRejects(failure: Data)
    ensures Proposed(V4, NoOptions, Transition(Invoker2Errored, Event(ErrorPlatform("invoker-2"), failure), Fulfilled))
            == Rejected(AsError(failure))
  {
    InvocationEvents("invoker-2");
  }

  /** Without `waitUntil` the second service's rejection rejects the send with that very error. */
  lemma LaterErrorRejects(ref: nat)
    ensures Run(V4, NoOptions, Pending, ErrorOnLaterStep(ErrorInstance(ref, "This is an error.")))
            == Rejected(Raised(ErrorInstance(ref, "This is an error.")))
  {
    var failure := ErrorInstance(ref, "This is an error.");
    var decisive := Transition(Invoker2Errored, Event(ErrorPlatform("invoker-2"), failure), Fulfilled);
    UpToSecondServiceWaits();
    Invoker2ErrorRejects(failure);
    DecidedAfterWaiting(V4, NoOptions, UpToSecondService(), decisive, []);
  }

  const UntilInvoker1: Options := Options(UntilDone(Text("invoker-1"), Undefined), false)

  lemma StartedIgnoredUntilInvoker1()
    ensures Proposed(V4, UntilInvoker1, Transition(StartedState, Event("START", Undefined), Fulfilled)) == Pending
  {
    NotAnErrorEvent("START");
    InvocationEvents("invoker-1");
  }

  /** With `waitUntil: { id }`, the done event of that service resolves with its snapshot and data. */
  lemma UntilDoneResolves(state: Snapshot, id: string, data: Data)
    ensures Proposed(V4, Options(UntilDone(Text(id), Undefined), false),
                     Transition(state, Event(DoneInvoke(id), data), Fulfilled))
            == Resolved(EventDataAndState(Json(state), data))
  {
    var options := Options(UntilDone(Text(id), Undefined), false);
    var event := Event(DoneInvoke(id), data);
    InvocationEvents(id);
    assert DoneType(V4, Undefined) + "." + id == event.eventType;
    assert ExtractErrorOrDone(V4, state, event, options) == Returns(Done(GetEventDataAndState(state, event)));
  }

  /**
   * With `waitUntil: { id: "invoker-1" }` the send resolves when the first service is done,
   * with its data, and the later rejection changes nothing.
   */
  lemma WaitUntilInvokerResolves(failure: Data)
    ensures Run(V4, UntilInvoker1, Pending, ErrorOnLaterStep(failure))
            == Resolved(EventDataAndState(Json(Invoker1Succeeded), Text("Hello World!")))
  {
    var waiting := [InitTransition(Object(0)), Transition(StartedState, Event("START", Undefined), Fulfilled)];
    var decisive := Transition(Invoker1Succeeded, Event(DoneInvoke("invoker-1"), Text("Hello World!")), Fulfilled);
    var rest := [Transition(Invoker2Errored, Event(ErrorPlatform("invoker-2"), failure), Fulfilled)];
    assert ErrorOnLaterStep(failure) == waiting + [decisive] + rest;
    InitTransitionProposesNothing(UntilInvoker1, Object(0));
    StartedIgnoredUntilInvoker1();
    UntilDoneResolves(Invoker1Succeeded, "invoker-1", Text("Hello World!"));
    DecidedAfterWaiting(V4, UntilInvoker1, waiting, decisive, rest);
  }

  /**
   * `NullEvent` is the empty string, a prefix of every type, so it is matched by
   * equality: the empty type is internal and `START`, which it prefixes, is not.
   */
  lemma NullEventMatchedByEquality()
    ensures StartsWith("START", V4.nullEvent)
    ensures IsInternalEvent(V4, "") && !IsInternalEvent(V4, "START")
  {
    UpperCaseTypesAreConsumerEvents("START");
  }

  /** A caller of the class: a send of `START` on the machine with resting states. */
  method SendToPenultimate()
  {
    var call := new PendingSend(V4, NoOptions, Plain(Text("START")));
    assert call.listening;
    var penultimate := Snapshot("penultimate", Object(0), ["SELECT", "BACK"]);
    var escaped := call.OnTransition(Snapshot("initial", Object(0), ["START"]), Event(V4.init, Undefined), Fulfilled);
    escaped := call.OnTransition(penultimate, Event("START", Undefined), Fulfilled);
    PenultimateResolves();
    assert call.settlement == Resolved(EventDataAndState(Json(penultimate), Undefined));
  }

  /**
   * A caller of the class: a send of `START` that reaches the final state `finality`.
   * The transition resolves the call; the machine's done notification that follows
   * changes nothing.
   */
  method SendToFinality()
  {
    var call := new PendingSend(V4, NoOptions, Plain(Text("START")));
    assert call.listening;
    var finality := Snapshot("finality", Object(0), []);
    var escaped := call.OnTransition(Snapshot("initial", Object(0), ["START"]), Event(V4.init, Undefined), Fulfilled);
    escaped := call.OnTransition(finality, Event("START", Undefined), Fulfilled);
    NoExitResolves("finality");
    assert call.settlement == Resolved(EventDataAndState(Json(finality), Undefined));
    call.OnDone(finality, Event(DoneInvoke("machine-with-resting-states"), Undefined));
    assert call.settlement == Resolved(EventDataAndState(Json(finality), Undefined));
  }

  /** A caller of the class: the empty string is falsy, so it is refused before anything is sent. */
  method SendEmptyString()
  {
    var call := new PendingSend(V4, NoOptions, Plain(Text("")));
    assert !call.listening;
    assert call.settlement == Rejected(NewError(Text(InvalidEventMessage)));
  }
}
