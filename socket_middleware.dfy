/** The DMS console's websocket middleware: sends made while the socket is not
    open wait in a pending list that a single polling timer drains, in push order,
    once the socket opens; a reconnect request only acts on a closed socket; and
    every action continues down the middleware chain. */
module SocketMiddleware {
  import opened Wrappers
  import opened Redux

  /** A WebSocket `readyState`: 0 connecting, 1 open, 2 closing, 3 closed. */
  type ReadyState = r: int | 0 <= r <= 3

  const Open: ReadyState := 1
  const Closed: ReadyState := 3

  /** What a send carries: the action's `value`, which may be absent. */
  type Payload<B> = Option<Envelope<B>>

  /** One `socket.send`: its payload, and whether the drain timer sent it from the
      pending list (`queued`) or the middleware sent it straight away. */
  datatype Frame<B> = Frame(payload: Payload<B>, queued: bool)

  /** The middleware's closure state, with what it has done to the outside world:
      the frames written to the socket, the actions passed to `next`, and the
      number of `socket.connect()` calls (the first one happens at set-up). */
  datatype State<B> = State(
    pending: seq<Payload<B>>,
    intervalSet: bool,
    liveTimers: nat,
    wire: seq<Frame<B>>,
    forwarded: seq<Action<B>>,
    connects: nat)

  function Initial<B>(): State<B>
  {
    State([], false, 0, [], [], 1)
  }

  /** Pending messages exist exactly when the drain timer is set, and the timer
      that is set is the only one running. */
  predicate Inv<B>(s: State<B>)
  {
    (s.intervalSet <==> s.pending != []) && s.liveTimers == (if s.intervalSet then 1 else 0)
  }

  /** The frames the drain timer writes for a pending list, one per entry, in order. */
  function Drained<B>(ps: seq<Payload<B>>): (fs: seq<Frame<B>>)
    ensures |fs| == |ps|
    ensures forall i :: 0 <= i < |ps| ==> fs[i] == Frame(ps[i], true)
  {
    seq(|ps|, i requires 0 <= i < |ps| => Frame(ps[i], true))
  }

  /** The middleware's reaction to one dispatched action, given the socket's
      `readyState` at that moment. */
  function OnAction<B>(s: State<B>, a: Action<B>, rs: ReadyState): (r: State<B>)
    ensures r.forwarded == s.forwarded + [a]
    ensures a.actionType == WsSendMessage && rs != Open ==>
      r.pending == s.pending + [a.value] && r.wire == s.wire && r.intervalSet
    ensures a.actionType == WsSendMessage && rs == Open ==>
      r.wire == s.wire + [Frame(a.value, false)] && r.pending == s.pending
    ensures a.actionType != WsSendMessage ==>
      r.pending == s.pending && r.wire == s.wire && r.intervalSet == s.intervalSet
    ensures r.liveTimers == s.liveTimers + (if a.actionType == WsSendMessage && rs != Open && !s.intervalSet then 1 else 0)
    ensures r.connects == s.connects + (if a.actionType == WsReconnect && rs == Closed then 1 else 0)
    ensures Inv(s) ==> Inv(r)
  {
    var s1 :=
      if a.actionType == WsSendMessage then
        if rs != Open then
          s.(pending := s.pending + [a.value], intervalSet := true,
             liveTimers := if s.intervalSet then s.liveTimers else s.liveTimers + 1)
        else s.(wire := s.wire + [Frame(a.value, false)])
      else s;
    var s2 := if a.actionType == WsReconnect && rs == Closed then s1.(connects := s1.connects + 1) else s1;
    s2.(forwarded := s2.forwarded + [a])
  }

  /** One firing of the drain timer. With no timer set nothing fires. */
  function OnTick<B>(s: State<B>, rs: ReadyState): (r: State<B>)
    ensures !(s.intervalSet && rs == Open) ==> r == s
    ensures s.intervalSet && rs == Open ==>
      r.wire == s.wire + Drained(s.pending) && r.pending == [] && !r.intervalSet
      && r.forwarded == s.forwarded && r.connects == s.connects
    ensures Inv(s) ==> Inv(r)
  {
    if s.intervalSet && rs == Open then
      s.(wire := s.wire + Drained(s.pending), pending := [], intervalSet := false,
         liveTimers := if s.liveTimers > 0 then s.liveTimers - 1 else 0)
    else s
  }

  datatype Event<B> = Dispatch(action: Action<B>, readyState: ReadyState) | Tick(readyState: ReadyState)

  function Step<B>(s: State<B>, e: Event<B>): State<B>
  {
    match e
    case Dispatch(a, rs) => OnAction(s, a, rs)
    case Tick(rs) => OnTick(s, rs)
  }

  function Run<B>(s: State<B>, evs: seq<Event<B>>): State<B>
    decreases |evs|
  {
    if evs == [] then s else Run(Step(s, evs[0]), evs[1..])
  }

  /** The payloads sent while the socket was not open, in dispatch order. */
  function Offline<B>(evs: seq<Event<B>>): seq<Payload<B>>
    decreases |evs|
  {
    if evs == [] then []
    else
      var e := evs[0];
      (if e.Dispatch? && e.action.actionType == WsSendMessage && e.readyState != Open then [e.action.value] else [])
      + Offline(evs[1..])
  }

  /** The payloads sent while the socket was open, in dispatch order. */
  function Online<B>(evs: seq<Event<B>>): seq<Payload<B>>
    decreases |evs|
  {
    if evs == [] then []
    else
      var e := evs[0];
      (if e.Dispatch? && e.action.actionType == WsSendMessage && e.readyState == Open then [e.action.value] else [])
      + Online(evs[1..])
  }

  function Actions<B>(evs: seq<Event<B>>): seq<Action<B>>
    decreases |evs|
  {
    if evs == [] then [] else (if evs[0].Dispatch? then [evs[0].action] else []) + Actions(evs[1..])
  }

  /** The payloads of the frames of one kind, in wire order. */
  function Sent<B>(wire: seq<Frame<B>>, queued: bool): seq<Payload<B>>
    decreases |wire|
  {
    if wire == [] then []
    else Sent(wire[..|wire| - 1], queued) + (if wire[|wire| - 1].queued == queued then [wire[|wire| - 1].payload] else [])
  }

  lemma {:induction false} SentAppend<B>(w: seq<Frame<B>>, more: seq<Frame<B>>, queued: bool)
    ensures Sent(w + more, queued) == Sent(w, queued) + Sent(more, queued)
    decreases |more|
  {
    if more == [] {
      assert w + more == w;
    } else {
      var init := more[..|more| - 1];
      assert (w + more)[..|w + more| - 1] == w + init;
      SentAppend(w, init, queued);
    }
  }

  lemma {:induction false} SentDrained<B>(ps: seq<Payload<B>>)
    ensures Sent(Drained(ps), true) == ps
    ensures Sent(Drained(ps), false) == []
    decreases |ps|
  {
    if ps != [] {
      var init := ps[..|ps| - 1];
      assert Drained(ps)[..|ps| - 1] == Drained(init);
      SentDrained(init);
    }
  }

  /** Over any run the invariant holds throughout: a pending message always has a
      timer to drain it, and at most one drain timer is ever running. */
  lemma {:induction false} NeverStranded<B>(s: State<B>, evs: seq<Event<B>>)
    requires Inv(s)
    ensures Inv(Run(s, evs))
    ensures Run(s, evs).pending != [] ==> Run(s, evs).intervalSet && Run(s, evs).liveTimers == 1
    ensures Run(s, evs).liveTimers <= 1
    decreases |evs|
  {
    if evs != [] {
      NeverStranded(Step(s, evs[0]), evs[1..]);
    }
  }

  /** The payload an event puts in the pending list, if any. */
  function OfflineHead<B>(e: Event<B>): seq<Payload<B>>
  {
    if e.Dispatch? && e.action.actionType == WsSendMessage && e.readyState != Open then [e.action.value] else []
  }

  /** One step of the FIFO property below. */
  lemma StepFifo<B>(s: State<B>, e: Event<B>)
    ensures Sent(Step(s, e).wire, true) + Step(s, e).pending == Sent(s.wire, true) + s.pending + OfflineHead(e)
  {
    match e
    case Dispatch(a, rs) =>
      if a.actionType == WsSendMessage && rs == Open {
        SentAppend(s.wire, [Frame(a.value, false)], true);
        assert Sent([Frame(a.value, false)], true) == [];
      }
    case Tick(rs) =>
      if s.intervalSet && rs == Open {
        SentAppend(s.wire, Drained(s.pending), true);
        SentDrained(s.pending);
      }
  }

  /** FIFO among queued messages: what the drain timer has written, followed by
      what still waits, is exactly what was pushed, in push order. Nothing queued
      is lost, duplicated or reordered. */
  lemma {:induction false} QueuedFifo<B>(s: State<B>, evs: seq<Event<B>>)
    ensures Sent(Run(s, evs).wire, true) + Run(s, evs).pending == Sent(s.wire, true) + s.pending + Offline(evs)
    decreases |evs|
  {
    if evs != [] {
      var s1 := Step(s, evs[0]);
      QueuedFifo(s1, evs[1..]);
      StepFifo(s, evs[0]);
      assert Offline(evs) == OfflineHead(evs[0]) + Offline(evs[1..]);
      assert Sent(s.wire, true) + s.pending + OfflineHead(evs[0]) + Offline(evs[1..])
             == Sent(s.wire, true) + s.pending + Offline(evs);
    }
  }

  /** Messages sent while the socket is open go out in dispatch order. */
  lemma {:induction false} OnlineInOrder<B>(s: State<B>, evs: seq<Event<B>>)
    ensures Sent(Run(s, evs).wire, false) == Sent(s.wire, false) + Online(evs)
    decreases |evs|
  {
    if evs != [] {
      var s1 := Step(s, evs[0]);
      OnlineInOrder(s1, evs[1..]);
      match evs[0]
      case Dispatch(a, rs) =>
        if a.actionType == WsSendMessage && rs == Open {
          SentAppend(s.wire, [Frame(a.value, false)], false);
          assert Sent([Frame(a.value, false)], false) == [a.value];
        }
      case Tick(rs) =>
        if s.intervalSet && rs == Open {
          SentAppend(s.wire, Drained(s.pending), false);
          SentDrained(s.pending);
        }
    }
  }

  /** Every dispatched action reaches the next middleware, unchanged and in order. */
  lemma {:induction false} AllForwarded<B>(s: State<B>, evs: seq<Event<B>>)
    ensures Run(s, evs).forwarded == s.forwarded + Actions(evs)
    decreases |evs|
  {
    if evs != [] {
      AllForwarded(Step(s, evs[0]), evs[1..]);
    }
  }

  /** Sends of the given payloads, each while the socket is not open. */
  function OfflineSends<B>(vs: seq<Payload<B>>, rs: ReadyState): seq<Event<B>>
    requires rs != Open
    decreases |vs|
  {
    if vs == [] then [] else [Dispatch(Action(WsSendMessage, vs[0]), rs)] + OfflineSends(vs[1..], rs)
  }

  lemma {:induction false} OfflineSendsQueue<B>(s: State<B>, vs: seq<Payload<B>>, rs: ReadyState)
    requires rs != Open
    requires Inv(s)
    ensures Run(s, OfflineSends(vs, rs)).pending == s.pending + vs
    ensures Run(s, OfflineSends(vs, rs)).wire == s.wire
    ensures Inv(Run(s, OfflineSends(vs, rs)))
    decreases |vs|
  {
    if vs != [] {
      var evs := OfflineSends(vs, rs);
      var s1 := OnAction(s, Action(WsSendMessage, vs[0]), rs);
      assert evs[0] == Dispatch(Action(WsSendMessage, vs[0]), rs);
      assert evs[1..] == OfflineSends(vs[1..], rs);
      assert Run(s, evs) == Run(s1, OfflineSends(vs[1..], rs));
      OfflineSendsQueue(s1, vs[1..], rs);
      assert s1.pending + vs[1..] == s.pending + vs;
    }
  }

  /** Sends made while the socket is not open are all written, in order, by the
      first timer tick that finds it open. */
  lemma FlushOnOpen<B>(s: State<B>, vs: seq<Payload<B>>, rs: ReadyState)
    requires rs != Open
    requires Inv(s)
    ensures OnTick(Run(s, OfflineSends(vs, rs)), Open).wire == s.wire + Drained(s.pending + vs)
    ensures OnTick(Run(s, OfflineSends(vs, rs)), Open).pending == []
  {
    OfflineSendsQueue(s, vs, rs);
  }

  /** A send while the socket is open can overtake a message still queued. */
  lemma DirectSendOvertakes<B>(v1: Payload<B>, v2: Payload<B>)
    ensures
      var s := Run(Initial(), [Dispatch(Action(WsSendMessage, v1), 0), Dispatch(Action(WsSendMessage, v2), Open), Tick(Open)]);
      s.wire == [Frame(v2, false), Frame(v1, true)]
  {
    var s0: State<B> := Initial();
    var s1 := OnAction(s0, Action(WsSendMessage, v1), 0);
    var s2 := OnAction(s1, Action(WsSendMessage, v2), Open);
    var s3 := OnTick(s2, Open);
    assert Drained([v1]) == [Frame(v1, true)];
    assert s3.wire == [Frame(v2, false), Frame(v1, true)];
    var evs: seq<Event<B>> := [Dispatch(Action(WsSendMessage, v1), 0), Dispatch(Action(WsSendMessage, v2), Open), Tick(Open)];
    assert evs[1..][1..][1..] == [];
    assert Run(s0, evs) == Run(s1, evs[1..]) == Run(s2, evs[1..][1..]) == Run(s3, evs[1..][1..][1..]);
  }

  class Middleware<B> {
    var pending: seq<Payload<B>>
    var intervalSet: bool
    var liveTimers: nat
    var wire: seq<Frame<B>>
    var forwarded: seq<Action<B>>
    var connects: nat

    function Model(): State<B>
      reads this
    {
      State(pending, intervalSet, liveTimers, wire, forwarded, connects)
    }

    /** Set-up: the socket is created and connected once, nothing is pending. */
    constructor ()
      ensures Model() == Initial()
    {
      pending := [];
      intervalSet := false;
      liveTimers := 0;
      wire := [];
      forwarded := [];
      connects := 1;
    }

    method Handle(a: Action<B>, rs: ReadyState)
      modifies this
      ensures Model() == OnAction(old(Model()), a, rs)
    {
      if a.actionType == WsSendMessage {
        if rs != Open {
          pending := pending + [a.value];
          if !intervalSet {
            intervalSet := true;
            liveTimers := liveTimers + 1;
          }
        } else {
          wire := wire + [Frame(a.value, false)];
        }
      }
      if a.actionType == WsReconnect && rs == Closed {
        connects := connects + 1;
      }
      forwarded := forwarded + [a];
    }

    method Tick(rs: ReadyState)
      modifies this
      ensures Model() == OnTick(old(Model()), rs)
    {
      if intervalSet && rs == Open {
        var i := 0;
        while i < |pending|
          invariant 0 <= i <= |pending|
          invariant pending == old(pending) && intervalSet == old(intervalSet) && liveTimers == old(liveTimers)
          invariant forwarded == old(forwarded) && connects == old(connects)
          invariant wire == old(wire) + Drained(pending[..i])
        {
          assert Drained(pending[..i + 1]) == Drained(pending[..i]) + [Frame(pending[i], true)];
          wire := wire + [Frame(pending[i], true)];
          i := i + 1;
        }
        assert pending[..i] == pending;
        pending := [];
        intervalSet := false;
        liveTimers := if liveTimers > 0 then liveTimers - 1 else 0;
      }
    }
  }
}
