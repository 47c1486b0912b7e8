# xstate-awaitable-send, modelled in Dafny

`createAwaitableSend` turns the transition stream of an xstate interpreter into one
Promise per sent event. Each call of the returned `awaitableSend` registers listeners on
the interpreter, sends the event, and settles its Promise once, whichever comes first:
a failure of the caller's `onTransition` observer; a transition that the completion
classifier (`extractErrorOrDone`) judges terminal; the machine reaching a final state;
or an exception that the interpreter throws inside the Promise executor while the
listeners are registered or the event is sent, which rejects the Promise.

This project models that core, `index.ts`:

- `JsValues` (`js_values.dfy`): the JavaScript values the wrapper passes around
  (`Data`, with object identities), truthiness, and error values (`Raised(v)` for a
  value as it was produced, `NewError(m)` for `new Error(m)`).
- `XState` (`xstate.dfy`): what the wrapper consumes from xstate: the `ActionTypes`
  table of reserved event types (a parameter of every definition; `V4` holds the
  spellings of xstate version 4, where `NullEvent` is the empty string), the driving
  `Event`, the `Snapshot` with its `nextEvents`, and the opaque serialisation `Json`.
- `Classifier` (`classifier.dfy`): `isInternalEvent`, `getEventDataAndState` and
  `extractErrorOrDone` as functions. The classifier's contract is its whole decision
  table in priority order: the init marker is ignored; the four SCXML error prefixes
  (section 5.10.1 of the W3C SCXML recommendation, "Errors") reject, with the payload
  itself when it is an Error and `new Error(payload)` otherwise; an object `waitUntil`
  throws without a string id and otherwise resolves exactly on `<done prefix>.<id>`; a
  predicate `waitUntil` resolves exactly when it returns a truthy value and throws what
  it throws; without `waitUntil` the transition resolves exactly at a resting point. The resting point is stated over the
  elements of `nextEvents`, and a lemma proves that the source's filter-length test
  agrees with it.
- `AwaitableSend` (`awaitable_send.dfy`): the settlement protocol. `PendingSend` is
  one call: `settlement` is the Promise, `OnTransition` and `OnDone` are the two
  listeners. The executor's `resolve` and `reject`, private to the call and used only
  by those listeners, are `Settle` assignments inside them ("first settlement wins").
  Its ghost `delivered` history and `Valid()` tie the Promise to `Run`, the fold of `Step` over
  the notifications delivered so far. The lemmas about `Run` state the protocol: a
  settled Promise never changes, a call stays pending exactly while nothing proposes a
  settlement, and the first proposal decides.
- `Scenarios` (`scenarios.dfy`): the repository's tests replayed on `Run` with xstate
  version 4's table, and three callers of `PendingSend`.

Behaviour of the code worth noting:

- The listeners are never removed. A settled call goes on receiving transitions, and
  each of them runs the observer and the classifier again without changing the Promise.
- A failed `onTransition` observer rejects, and the classifier still runs for that
  transition; it can no longer change the settled Promise, but it can still throw.
- An object `waitUntil` whose `id` is not a string does not fail the call up front. The
  classifier throws inside the asynchronous listener on every transition that is neither
  the init marker nor an error event. The exception rejects only the listener's own
  Promise, which nobody observes. `OnTransition` returns it as `escaped` and leaves
  `settlement` alone. Such a call can still be settled by an error event, an observer
  failure or the final state, but no transition resolves it
  (`NonStringIdNeverResolvesByTransition`).
- A `waitUntil` predicate that throws (index.ts:122) acts like the non-string id: its
  exception escapes the listener and the Promise is not touched
  (`PredicateThrowEscapes`). Its result is tested for truthiness, not for `true`.
- A state offering only the event type just handled is not a resting point
  (`OnlyCurrentEventIsIgnored`).
- The empty string is falsy, so `awaitableSend("")` is refused like a missing event.

## Model

| member | source | states |
|---|---|---|
| `Classifier.ExtractErrorOrDone` | index.ts:59-170 | first match wins: init is `Ignore`; an error prefix gives `Error` of the payload (itself if an Error, else `new Error(payload)`); an object `waitUntil` throws the configuration error exactly when its id is not a string, else it is `Done` exactly when the type equals `<done prefix>.<id>` and `Ignore` otherwise; a predicate gives `Done` exactly when it returns a truthy value, `Ignore` exactly when it returns a falsy one, and throws `Raised(x)` exactly when it throws `x`; with no `waitUntil` it is `Done` exactly at a resting point; a `Done` always holds the serialised snapshot and `event.data` |
| `Classifier.GetEventDataAndState` | index.ts:28-41 | the resolved pair holds the serialisation of the given snapshot and the event's `data` |
| `Classifier.IsInternalEvent` | index.ts:43-52 | `NullEvent` itself is internal, and so is every type starting with init, `DoneInvoke` or `DoneState` |
| `Classifier.IsErrorEvent` | index.ts:83-88 | a type with one of the four error prefixes is an error event, and every error event is internal |
| `Classifier.AsError` | index.ts:93 | the rejection reason is the payload itself exactly when it is an Error instance, and `new Error(payload)` otherwise |
| `Classifier.DoneType` | index.ts:108-112 | the `waitUntil` discriminator selects `DoneInvoke` when absent or `"invoke"` and `DoneState` for any other value; the result is one of the reserved prefixes |
| `Classifier.Filter` | index.ts:151-156 | the filtered list holds exactly the elements of the input that satisfy the test, and is no longer than the input |
| `Classifier.InternalNextEvents` | index.ts:151-153 | holds exactly the members of `nextEvents` that are internal |
| `Classifier.ConsumerNextEvents` | index.ts:154-156 | holds exactly the members of `nextEvents` that are not internal and differ from the current type |
| `Classifier.RestingFromFilters` | index.ts:150-162 | the source's test (no next events, or some consumer event other than the current one and zero internal ones, counted through filters) is equivalent to the element-wise resting condition |
| `Classifier.WaitUntilIdIgnoresSnapshot` | index.ts:99-130 | with an object `waitUntil`, the kind of outcome does not depend on the snapshot, so `nextEvents` is never consulted |
| `Classifier.WaitUntilOverridesResting` | index.ts:99-130 | with either form of `waitUntil`, a transition that is not init, not an error, and neither matches the id nor makes the predicate return a truthy value (without throwing) is `Ignore`, even at a resting point |
| `Classifier.OnlyCurrentEventIsIgnored` | index.ts:154-162 | with no `waitUntil`, non-empty `nextEvents` that all equal the current type give `Ignore` |
| `Classifier.PendingInternalEventIsIgnored` | index.ts:151-162 | with no `waitUntil`, any internal event among `nextEvents` gives `Ignore` |
| `XState.OtherActionTypes` | index.ts:44-45 | the prefix list has the 19 values other than `NullEvent`, among them init, both done types and the four error types |
| `AwaitableSend.IsInvalidEventArgument` | index.ts:230-233 | the guard accepts exactly a non-empty string or an object whose `type` is a string |
| `AwaitableSend.Settle` | index.ts:240-266 | the executor's `resolve` and `reject`, called only by the two listeners: the first call wins: a settled Promise is unchanged, a pending one takes the attempt, and a real attempt always settles it |
| `AwaitableSend.TransitionEffect` | index.ts:242-259 | one transition listener run is one first-wins settlement with what the transition proposes, and an exception escapes exactly when the classifier throws, carrying the thrown error |
| `AwaitableSend.Proposed` | index.ts:240-272 | the final-state notification proposes the current snapshot with the done data; an exception out of the executor proposes a rejection with the thrown value; a transition proposes the observer's failure when there is one, otherwise nothing exactly when the classifier ignores or throws, and else the classifier's own done value or error |
| `AwaitableSend.Step` | index.ts:240-266 | each notification acts on the Promise as one first-wins settlement with what it proposes |
| `AwaitableSend.Run` | index.ts:240-266 | once resolved or rejected, no sequence of later notifications changes the Promise |
| `AwaitableSend.PredicateThrowEscapes` | index.ts:122 | a `waitUntil` predicate that throws leaves the Promise as the observer left it, and its exception escapes the listener |
| `AwaitableSend.ObserverFailureRejects` | index.ts:243-258 | a failed observer rejects a pending call with the thrown value whatever the verdict, and the classifier still runs (its throw still escapes) |
| `AwaitableSend.PendingUntilProposal` | index.ts:240-266 | a call stays pending exactly when none of the delivered notifications proposes a settlement |
| `AwaitableSend.FirstProposalWins` | index.ts:240-266 | the first notification that proposes a settlement decides the Promise |
| `AwaitableSend.SettlesAtMostOnce` | index.ts:240-266 | when a prefix of the notifications has settled the call, the full sequence leaves the same settlement |
| `AwaitableSend.NonStringIdNeverResolvesByTransition` | index.ts:99-106 | with an object `waitUntil` whose id is not a string, transitions alone never resolve a call that is not already resolved |
| `AwaitableSend.PendingSend.constructor` | index.ts:229-240 | an invalid argument rejects with the invalid-event error and registers no listener; a valid one leaves the Promise pending |
| `AwaitableSend.PendingSend.OnTransition` | index.ts:242-259 | the new Promise state and the escaped exception are those of `TransitionEffect`: observer failure, then the classifier's verdict, first settlement winning; the delivered history grows by this transition |
| `AwaitableSend.PendingSend.OnDone` | index.ts:260-266 | resolves a pending Promise with the current snapshot and the done event's data; a settled one is unchanged |
| `AwaitableSend.PendingSend.OnExecutorThrow` | index.ts:240-272 | an exception out of the executor's calls into the interpreter rejects a pending Promise with the thrown value; a settled one is unchanged; the delivered history grows by it |
| `Scenarios.UpperCaseTypesAreConsumerEvents` | index.ts:43-52 | with xstate version 4's table, types such as `START`, `SELECT` and `BACK` are not internal |
| `Scenarios.InvocationEvents` | index.ts:43-52 | `done.invoke.<id>` and `error.platform.<id>` are internal; only the latter is an error event |
| `Scenarios.NullEventMatchedByEquality` | index.ts:44-50 | the empty `NullEvent` prefixes `START`, yet only the empty type itself is internal |
| `Scenarios.InitTransitionLooksResting` | index.ts:76-80 | the initial snapshot would pass the resting-state test, and the init filter ignores it |
| `Scenarios.InitTransitionProposesNothing` | index.ts:78-80 | the init transition proposes no settlement, whatever the options |
| `Scenarios.RestingAfterStart` | index.ts:150-167 | after the init transition, a `START` transition into a resting snapshot resolves with that snapshot |
| `Scenarios.PenultimateResolves` | index.test.ts:213-220 | a send of `START` resolves in `penultimate`, whose next events are `SELECT` and `BACK` |
| `Scenarios.NoExitResolves` | index.test.ts:206-227 | a send of `START` into a state with no next events (`empty`, `finality`) resolves there |
| `Scenarios.SequentialStepsResolveAtSuccess` | index.test.ts:165-204 | the sequential machine waits through both invoked services and resolves in `success` with the second service's data |
| `Scenarios.LaterErrorRejects` | index.test.ts:239-248 | without `waitUntil`, the second service's rejection rejects the send with that same Error |
| `Scenarios.WaitUntilInvokerResolves` | index.test.ts:229-237 | with `waitUntil: { id: "invoker-1" }` the send resolves in `invoker1Succeeded` with `Hello World!`, and the later error changes nothing |

## Left out

- The xstate interpreter: `interpret`, `service.send`, `service.start`, `status` and the
  registration of listeners are calls into a library. Notifications are inputs to
  `OnTransition` and `OnDone`, and `state.toJSON()` is the opaque `Json(snapshot)`.
  When those calls throw (index.ts:241-272) is not modelled: `OnExecutorThrow` takes the
  thrown value as an input, at whatever point of the trace it occurs.
- The send-then-start ordering (index.ts:268-272) is interpreter behaviour. The
  scenarios start with the init transition that starting the interpreter produces.
- The factory's `instanceof Interpreter` / `isMachine` check (index.ts:213-227) rests on
  runtime type tests of the library.
- Asynchrony: awaiting the observer and Promise scheduling. The observer is modelled
  only by its outcome for each transition (`Fulfilled` or `Failed(thrown)`), a
  parameter of `OnTransition`. With an observer configured, a transition's
  classification runs only once the listener resumes after the `await` (index.ts:247),
  so the order of `delivered` is the order in which listeners resume, not the order of
  the transitions; the synchronous `onDone` listener (index.ts:260) can then run before
  the final transition is classified. `Run` accepts notifications in any order, so the
  protocol lemmas hold for whatever order that is.
- `Classifier.ExtractErrorOrDone`: a `waitUntil` predicate is modelled as a fixed function
  of the snapshot and the event, so two equal transitions get the same result from it;
  caller code whose answer depends on a counter, the clock or the observer's side
  effects is not expressible. No lemma depends on this.
- Listener lifetime: the code never removes its listeners, so there is no teardown to
  model. Earlier calls' listeners also see later calls' transitions; the model covers
  one call at a time.
- The unhandled rejection produced by a throwing listener is only returned as
  `escaped`; what the runtime does with it is not modelled.
- The `ActionTypes` spellings in `XState.V4` are those of the xstate version 4
  enumeration, which is defined in the xstate package, not in index.ts. Every property
  of the classifier and of the protocol is proved for any table. The done event the
  interpreter passes to `onDone` listeners is taken to be `done.invoke.<machine id>`;
  only its `data` matters to the model.
- JavaScript values are simplified: numbers are integers (no `NaN`, no fractions),
  snapshot values are plain strings rather than nested state values, and `new Error(x)`
  records `x` rather than computing `String(x)`.
