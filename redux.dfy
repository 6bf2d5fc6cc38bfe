/** The shapes both consoles exchange: the websocket envelope `{type, message, time}`
    and the Redux action `{type, value}`, plus the websocket action types. */
module Redux {
  import opened Wrappers

  /** One websocket message; `B` is the body type of the channel. */
  datatype Envelope<B> = Envelope(msgType: string, message: B, time: int)

  /** A Redux action; `value` is absent for the actions that carry none. */
  datatype Action<B> = Action(actionType: string, value: Option<Envelope<B>>)

  const WsConnected: string := "WS_CONNECTED"
  const WsDisconnected: string := "WS_DISCONNECTED"
  const WsMessage: string := "WS_MESSAGE"
  const WsSendMessage: string := "WS_SEND_MESSAGE"
  const WsClearMessages: string := "WS_CLEAR_MESSAGES"
  const WsReconnect: string := "WS_RECONNECT"

  /** The action a console dispatches to send a command over the websocket. */
  function SendCommand<B>(msgType: string, body: B, now: int): (a: Action<B>)
    ensures a.actionType == WsSendMessage && a.value.Some?
    ensures a.value.value.msgType == msgType && a.value.value.message == body
  {
    Action(WsSendMessage, Some(Envelope(msgType, body, now)))
  }
}
