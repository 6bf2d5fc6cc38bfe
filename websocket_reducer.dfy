/** The DMS console's websocket slice: the connection state and a log of every
    message sent or received, newest first, with no bound on its length. */
module WebsocketReducer {
  import opened Wrappers
  import opened Redux

  datatype ConnectionState = Connected | Disconnected
  datatype Origin = In | Out

  datatype LogEntry<B> = LogEntry(origin: Origin, timestamp: int, message: Option<Envelope<B>>)

  datatype WebSocketState<B> = WebSocketState(state: ConnectionState, messages: seq<LogEntry<B>>)

  function Initial<B>(): WebSocketState<B>
  {
    WebSocketState(Disconnected, [])
  }

  /** `websocketReducer`; `now` is the `moment()` each new log entry records. */
  function Reduce<B>(s: WebSocketState<B>, a: Action<B>, now: int): (r: WebSocketState<B>)
    ensures a.actionType == WsClearMessages ==> r == s.(messages := [])
    ensures a.actionType == WsConnected ==> r == s.(state := Connected)
    ensures a.actionType == WsDisconnected ==> r == s.(state := Disconnected)
    ensures a.actionType == WsSendMessage ==>
      r.state == s.state && r.messages == [LogEntry(Out, now, a.value)] + s.messages
    ensures a.actionType == WsMessage ==>
      r.state == s.state && r.messages == [LogEntry(In, now, a.value)] + s.messages
    ensures a.actionType !in {WsClearMessages, WsConnected, WsDisconnected, WsSendMessage, WsMessage} ==> r == s
  {
    if a.actionType == WsClearMessages then s.(messages := [])
    else if a.actionType == WsConnected then s.(state := Connected)
    else if a.actionType == WsDisconnected then s.(state := Disconnected)
    else if a.actionType == WsSendMessage then s.(messages := [LogEntry(Out, now, a.value)] + s.messages)
    else if a.actionType == WsMessage then s.(messages := [LogEntry(In, now, a.value)] + s.messages)
    else s
  }

  /** An action together with the moment it was reduced. */
  datatype Timed<B> = Timed(action: Action<B>, now: int)

  function RunAll<B>(s: WebSocketState<B>, acts: seq<Timed<B>>): WebSocketState<B>
    decreases |acts|
  {
    if acts == [] then s else RunAll(Reduce(s, acts[0].action, acts[0].now), acts[1..])
  }

  /** The log entry an action contributes, if any. */
  function EntryOf<B>(t: Timed<B>): seq<LogEntry<B>>
  {
    if t.action.actionType == WsSendMessage then [LogEntry(Out, t.now, t.action.value)]
    else if t.action.actionType == WsMessage then [LogEntry(In, t.now, t.action.value)]
    else []
  }

  /** The log a sequence of actions leaves, computed independently: the entries
      since the last clear, newest first. */
  function LogSince<B>(initial: seq<LogEntry<B>>, acts: seq<Timed<B>>): seq<LogEntry<B>>
    decreases |acts|
  {
    if acts == [] then initial
    else
      var last := acts[|acts| - 1];
      var before := LogSince(initial, acts[..|acts| - 1]);
      if last.action.actionType == WsClearMessages then [] else EntryOf(last) + before
  }

  lemma {:induction false} RunAllSplit<B>(s: WebSocketState<B>, acts: seq<Timed<B>>)
    requires acts != []
    ensures RunAll(s, acts) == (var t := acts[|acts| - 1]; Reduce(RunAll(s, acts[..|acts| - 1]), t.action, t.now))
    decreases |acts|
  {
    if |acts| > 1 {
      var s1 := Reduce(s, acts[0].action, acts[0].now);
      RunAllSplit(s1, acts[1..]);
      assert acts[1..][..|acts[1..]| - 1] == acts[..|acts| - 1][1..];
    }
  }

  /** The reducer keeps exactly the entries since the last clear, newest first,
      and never drops an older one otherwise: the log has no cap. */
  lemma {:induction false} LogIsHistory<B>(s: WebSocketState<B>, acts: seq<Timed<B>>)
    ensures RunAll(s, acts).messages == LogSince(s.messages, acts)
    decreases |acts|
  {
    if acts != [] {
      RunAllSplit(s, acts);
      LogIsHistory(s, acts[..|acts| - 1]);
    }
  }

  /** Without a clear, every send and receipt adds one entry. */
  lemma {:induction false} LogGrowsWithoutCap<B>(s: WebSocketState<B>, acts: seq<Timed<B>>)
    requires forall k :: 0 <= k < |acts| ==> acts[k].action.actionType in {WsSendMessage, WsMessage}
    ensures |RunAll(s, acts).messages| == |s.messages| + |acts|
    decreases |acts|
  {
    if acts != [] {
      LogGrowsWithoutCap(Reduce(s, acts[0].action, acts[0].now), acts[1..]);
    }
  }
}
