/**
 * The interface the wrapper consumes from the xstate interpreter: the reserved event
 * types, the driving event of a transition and the state snapshot that transition produced.
 */
module XState {
  import opened JsValues

  /**
   * The interpreter's `ActionTypes` enumeration: reserved event types and event-type
   * prefixes. The classifier takes the table as a parameter, so every property proved
   * about it holds for any spelling of these strings.
   */
  datatype ActionTypes = ActionTypes(
    start: string,
    stop: string,
    raise: string,
    send: string,
    cancel: string,
    nullEvent: string,
    assign: string,
    after: string,
    doneState: string,
    doneInvoke: string,
    log: string,
    init: string,
    invoke: string,
    errorExecution: string,
    errorCommunication: string,
    errorPlatform: string,
    errorCustom: string,
    update: string,
    pure: string,
    choose: string)

  /** The values of the enumeration other than `NullEvent`, in declaration order. */
  function OtherActionTypes(t: ActionTypes): (r: seq<string>)
    ensures |r| == 19
    ensures t.init in r && t.doneState in r && t.doneInvoke in r
    ensures t.errorPlatform in r && t.errorCommunication in r
    ensures t.errorExecution in r && t.errorCustom in r
  {
    [t.start, t.stop, t.raise, t.send, t.cancel, t.assign, t.after, t.doneState,
     t.doneInvoke, t.log, t.init, t.invoke, t.errorExecution, t.errorCommunication,
     t.errorPlatform, t.errorCustom, t.update, t.pure, t.choose]
  }

  /** The spellings used by xstate version 4; `NullEvent` is the empty string. */
  const V4: ActionTypes := ActionTypes(
    "xstate.start", "xstate.stop", "xstate.raise", "xstate.send", "xstate.cancel",
    "", "xstate.assign", "xstate.after", "done.state", "done.invoke", "xstate.log",
    "xstate.init", "xstate.invoke", "error.execution", "error.communication",
    "error.platform", "xstate.error", "xstate.update", "xstate.pure", "xstate.choose")

  /** The event that drove a transition: its type tag `eventType` and its optional `data` payload. */
  datatype Event = Event(eventType: string, data: Data)

  /**
   * The interpreter's state after a transition: the state value, the context, and
   * `nextEvents`, the event types that could cause a further transition.
   */
  datatype Snapshot = Snapshot(value: string, context: Data, nextEvents: seq<string>)

  /** `state.toJSON()`: the serialised snapshot, which the wrapper passes on unread. */
  datatype Json = Json(of: Snapshot)
}
