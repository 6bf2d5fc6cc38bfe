/** The DMS console's store: the three slices combined, and the saga that turns
    an incoming websocket message into the action of the slice it is for. */
module DmsStore {
  import opened Wrappers
  import opened Redux
  import opened DmsModel
  import WebsocketReducer
  import EnrollProcesorReducer
  import DmsReducer

  /** The message types the saga forwards. */
  predicate IsRouted(msgType: string)
  {
    msgType == EnrollingProcessUpdate || msgType == DmsUpdate || msgType == EnrolledIdentitiesUpdate
  }

  /** The `message` saga on a `WS_MESSAGE`: a message of a routed type is
      re-dispatched as the action of that name carrying the same message; every
      other message, and every other action, starts nothing. */
  function Route(a: Action<DmsBody>): (r: Option<Action<DmsBody>>)
    ensures r.Some? <==> a.actionType == WsMessage && a.value.Some? && IsRouted(a.value.value.msgType)
    ensures r.Some? ==> r.value.actionType == a.value.value.msgType && r.value.value == a.value
    ensures r.Some? ==> r.value.actionType != WsMessage
  {
    if a.actionType == WsMessage && a.value.Some? && IsRouted(a.value.value.msgType) then
      Some(Action(a.value.value.msgType, a.value))
    else None
  }

  datatype RootState = RootState(
    enrollProcesor: EnrollProcesorReducer.EnrollView,
    websocket: WebsocketReducer.WebSocketState<DmsBody>,
    dms: DmsReducer.DmsView)

  function Initial(): RootState
  {
    RootState(EnrollProcesorReducer.Initial(), WebsocketReducer.Initial(), DmsReducer.Initial())
  }

  /** `combineReducers`: every slice sees every action. */
  method ReduceRoot(s: RootState, a: Action<DmsBody>, now: int) returns (r: RootState)
    ensures r.enrollProcesor == EnrollProcesorReducer.Reduce(s.enrollProcesor, a)
    ensures r.websocket == WebsocketReducer.Reduce(s.websocket, a, now)
    ensures DmsReducer.Reduced(s.dms, a, r.dms)
  {
    var d := DmsReducer.Reduce(s.dms, a);
    r := RootState(EnrollProcesorReducer.Reduce(s.enrollProcesor, a),
                   WebsocketReducer.Reduce(s.websocket, a, now), d);
  }

  /** One message from the backend, end to end: the `WS_MESSAGE` action goes
      through the reducers, then the saga re-dispatches it. The websocket log
      gains exactly one inbound entry; only the slice the message is for changes
      besides; a message of any other type changes nothing else. The log entry
      holds the very message the saga forwards, so an identity list that the
      DMS slice sorts in place is sorted in the log too. */
  method Deliver(s: RootState, msg: Envelope<DmsBody>, now: int) returns (r: RootState)
    ensures !DmsReducer.IsIdentitiesPush(Action(msg.msgType, Some(msg))) ==>
              r.websocket == s.websocket.(messages := [WebsocketReducer.LogEntry(WebsocketReducer.In, now, Some(msg))] + s.websocket.messages)
    ensures DmsReducer.IsIdentitiesPush(Action(msg.msgType, Some(msg))) ==>
              r.websocket == s.websocket.(messages := [WebsocketReducer.LogEntry(WebsocketReducer.In, now,
                                                           Some(msg.(message := IdentitiesBody(r.dms.enrolledIdentities))))]
                                                       + s.websocket.messages)
    ensures !IsRouted(msg.msgType) ==> r.enrollProcesor == s.enrollProcesor && r.dms == s.dms
    ensures msg.msgType == EnrollingProcessUpdate ==>
              r.enrollProcesor == EnrollProcesorReducer.Reduce(s.enrollProcesor, Action(EnrollingProcessUpdate, Some(msg))) &&
              r.dms == s.dms
    ensures msg.msgType == DmsUpdate || msg.msgType == EnrolledIdentitiesUpdate ==>
              r.enrollProcesor == s.enrollProcesor &&
              DmsReducer.Reduced(s.dms, Action(msg.msgType, Some(msg)), r.dms)
  {
    var incoming := Action(WsMessage, Some(msg));
    var r1 := ReduceRoot(s, incoming, now);
    assert r1.enrollProcesor == s.enrollProcesor && r1.dms == s.dms;
    match Route(incoming)
    case None =>
      r := r1;
    case Some(routed) =>
      r := ReduceRoot(r1, routed, now);
      assert r.websocket == r1.websocket;
      assert msg.msgType != EnrollingProcessUpdate ==> r.enrollProcesor == r1.enrollProcesor;
      assert msg.msgType == EnrollingProcessUpdate ==> r.dms == r1.dms;
      if DmsReducer.IsIdentitiesPush(routed) {
        var sorted := msg.(message := IdentitiesBody(r.dms.enrolledIdentities));
        r := r.(websocket := r.websocket.(messages := [WebsocketReducer.LogEntry(WebsocketReducer.In, now, Some(sorted))]
                                                      + s.websocket.messages));
      }
  }
}
