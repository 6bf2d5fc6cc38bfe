/** The device backend's websocket side: the switch that turns a console
    message into a service call, the forwarding of stored states to the
    console, and the publisher that writes to the one connection there is. */
module DeviceTransport {
  import opened Wrappers
  import opened Redux
  import opened DeviceModel
  import opened DeviceChannel
  import SerializedDevice
  import DeviceService

  /** The service call a console message asks for. */
  datatype Request =
    | ChangeRate(interval: int)
    | NewId
    | NewSlot
    | EnrollSlot(slotID: string)
    | ReenrollSlot(slotID: string)
    | ConnectProvider(provider: CloudProviderType, slotID: string)
    | NoRequest

  predicate IsHandled(msgType: string)
  {
    msgType in {ChangeTelemetryDataRate, GenNewId, GenNewSlot, EnrollType, ReenrollType, MqttConnect}
  }

  /** `messageHandler`'s switch. Fields are decoded Go-style; `MQTT_CONNECT`
      always asks for the Azure provider; every other type asks for nothing. */
  function Dispatch(m: Envelope<DeviceBody>): (r: Request)
    ensures m.msgType == ChangeTelemetryDataRate ==> r == ChangeRate(NewRateOf(m.message))
    ensures m.msgType == GenNewId ==> r == NewId
    ensures m.msgType == GenNewSlot ==> r == NewSlot
    ensures m.msgType == EnrollType ==> r == EnrollSlot(SlotIdOf(m.message))
    ensures m.msgType == ReenrollType ==> r == ReenrollSlot(SlotIdOf(m.message))
    ensures m.msgType == MqttConnect ==> r == ConnectProvider(Azure, SlotIdOf(m.message))
    ensures r == NoRequest <==> !IsHandled(m.msgType)
  {
    if m.msgType == ChangeTelemetryDataRate then ChangeRate(NewRateOf(m.message))
    else if m.msgType == GenNewId then NewId
    else if m.msgType == GenNewSlot then NewSlot
    else if m.msgType == EnrollType then EnrollSlot(SlotIdOf(m.message))
    else if m.msgType == ReenrollType then ReenrollSlot(SlotIdOf(m.message))
    else if m.msgType == MqttConnect then ConnectProvider(Azure, SlotIdOf(m.message))
    else NoRequest
  }

  /** The provider a console asks for makes no difference. */
  lemma ProviderIgnored(slotId: Option<string>, p1: Option<string>, p2: Option<string>, t1: int, t2: int)
    ensures Dispatch(Envelope(MqttConnect, Command(None, slotId, p1), t1))
            == Dispatch(Envelope(MqttConnect, Command(None, slotId, p2), t2))
  {
  }

  /** The values an executed call draws: a serial number, a key, and the
      outcomes of the exchanges it makes. */
  datatype Draws = Draws(
    serial: string,
    key: PrivateKey,
    enrollment: DeviceService.EnrollOutcome,
    renewal: DeviceService.ReenrollOutcome,
    connectErr: Option<string>)

  function CallOf(req: Request, draws: Draws): (c: Option<DeviceService.Call>)
    ensures c.None? <==> req == NoRequest
  {
    match req
    case ChangeRate(interval) => Some(DeviceService.IntervalCall(interval))
    case NewId => Some(DeviceService.ResetCall(draws.serial))
    case NewSlot => Some(DeviceService.NewSlotCall)
    case EnrollSlot(slotID) => Some(DeviceService.EnrollCall(slotID, draws.key, draws.enrollment))
    case ReenrollSlot(slotID) => Some(DeviceService.ReenrollCall(slotID, draws.renewal))
    case ConnectProvider(provider, slotID) => Some(DeviceService.ConnectCall(provider, slotID, draws.connectErr))
    case NoRequest => None
  }

  /** A console message's effect on the service, and whether the call it
      makes panicked. */
  datatype Handled = Handled(next: DeviceService.Service, panicked: bool)

  /** `messageHandler` on one message. The one call that panics is the
      enrollment of an existing slot whose certificate comes back without a
      PEM block. */
  function Handle(s: DeviceService.Service, m: Envelope<DeviceBody>, draws: Draws): (h: Handled)
    ensures h.panicked <==> m.msgType == EnrollType && DeviceService.IndexOf(s.device.slots, SlotIdOf(m.message)) >= 0 &&
                            draws.enrollment == DeviceService.CertNotPem
  {
    match CallOf(Dispatch(m), draws)
    case None => Handled(s, false)
    case Some(c) =>
      Handled(DeviceService.Perform(s, c), c.EnrollCall? && DeviceService.EnrollSlot(s, c.slotID, c.key, c.enrollment).panicked)
  }

  /** A message of a type the switch does not know, `MQTT_DISCONNECT` among
      them, changes nothing; a rate change or an MQTT connection leaves the
      device and its notifications alone, so the console is not told. */
  lemma HandleQuietCases(s: DeviceService.Service, m: Envelope<DeviceBody>, draws: Draws)
    ensures !IsHandled(m.msgType) ==> Handle(s, m, draws) == Handled(s, false)
    ensures m.msgType == ChangeTelemetryDataRate || m.msgType == MqttConnect ==>
              Handle(s, m, draws).next.device == s.device && Handle(s, m, draws).next.notifications == s.notifications
  {
  }

  /** Handling any sequence of console messages keeps the service valid. */
  lemma {:induction false} HandleAllValid(s: DeviceService.Service, ms: seq<Envelope<DeviceBody>>, draws: seq<Draws>)
    requires DeviceService.Valid(s) && |draws| == |ms|
    ensures DeviceService.Valid(HandleAll(s, ms, draws).next)
    decreases |ms|
  {
    if ms != [] {
      match CallOf(Dispatch(ms[0]), draws[0]) {
        case None =>
        case Some(c) => DeviceService.PerformValid(s, c);
      }
      HandleAllValid(Handle(s, ms[0], draws[0]).next, ms[1..], draws[1..]);
    }
  }

  /** `MainRoute`'s loop over the messages a console sends: each is handled
      in turn until a handler panics, which ends the loop; the messages after
      that one are never read. */
  function HandleAll(s: DeviceService.Service, ms: seq<Envelope<DeviceBody>>, draws: seq<Draws>): Handled
    requires |draws| == |ms|
    decreases |ms|
  {
    if ms == [] then Handled(s, false)
    else
      var h := Handle(s, ms[0], draws[0]);
      if h.panicked then h else HandleAll(h.next, ms[1..], draws[1..])
  }

  /** Reading more messages continues from where the loop stood, unless it
      has already ended in a panic: then they change nothing. */
  lemma {:induction false} HandleAllAppend(s: DeviceService.Service, ms: seq<Envelope<DeviceBody>>, draws: seq<Draws>,
                                           more: seq<Envelope<DeviceBody>>, moreDraws: seq<Draws>)
    requires |draws| == |ms| && |moreDraws| == |more|
    ensures var h := HandleAll(s, ms, draws);
            HandleAll(s, ms + more, draws + moreDraws) == if h.panicked then h else HandleAll(h.next, more, moreDraws)
    decreases |ms|
  {
    if ms != [] {
      assert (ms + more)[1..] == ms[1..] + more;
      assert (draws + moreDraws)[1..] == draws[1..] + moreDraws;
      var h := Handle(s, ms[0], draws[0]);
      if !h.panicked {
        HandleAllAppend(h.next, ms[1..], draws[1..], more, moreDraws);
      }
    } else {
      assert ms + more == more && draws + moreDraws == moreDraws;
    }
  }

  // ---------------------------------------------------------------------
  // Outbound messages

  /** The message carrying a stored state to the console. */
  function StateMessage(d: DeviceState, now: int): (m: Envelope<DeviceBody>)
    ensures m.msgType == DeviceStateUpdate && m.message == DeviceUpdate(SerializedDevice.SerializedDeviceOf(d))
  {
    Envelope(DeviceStateUpdate, DeviceUpdate(SerializedDevice.SerializedDeviceOf(d)), now)
  }

  function StateMessages(updates: seq<DeviceState>, times: seq<int>): (ms: seq<Envelope<DeviceBody>>)
    requires |times| == |updates|
    ensures |ms| == |updates| && forall k :: 0 <= k < |updates| ==> ms[k] == StateMessage(updates[k], times[k])
  {
    seq(|updates|, k requires 0 <= k < |updates| => StateMessage(updates[k], times[k]))
  }

  /** The publisher's view: whether a connection was ever established (it is
      never cleared) and what was written to it. */
  datatype Socket = Socket(connected: bool, written: seq<Envelope<DeviceBody>>)

  /** `publishToWebsocket`: a message is written when there is a connection and
      dropped, not kept, when there is none. */
  function Publish(w: Socket, m: Envelope<DeviceBody>): (r: Socket)
    ensures r.connected == w.connected
    ensures w.connected ==> r.written == w.written + [m]
    ensures !w.connected ==> r.written == w.written
  {
    if w.connected then w.(written := w.written + [m]) else w
  }

  function PublishAll(w: Socket, ms: seq<Envelope<DeviceBody>>): Socket
    decreases |ms|
  {
    if ms == [] then w else PublishAll(Publish(w, ms[0]), ms[1..])
  }

  /** Before a console connects every message is lost; once one has, every
      message is written, in order. */
  lemma {:induction false} PublishAllWrites(w: Socket, ms: seq<Envelope<DeviceBody>>)
    ensures PublishAll(w, ms).connected == w.connected
    ensures w.connected ==> PublishAll(w, ms).written == w.written + ms
    ensures !w.connected ==> PublishAll(w, ms).written == w.written
    decreases |ms|
  {
    if ms != [] {
      PublishAllWrites(Publish(w, ms[0]), ms[1..]);
      if w.connected {
        assert w.written + [ms[0]] + ms[1..] == w.written + ms;
      }
    }
  }

  class WebsocketHandler {
    const deviceService: DeviceService.DeviceServiceImpl
    var connected: bool
    var written: seq<Envelope<DeviceBody>>
    var reading: bool

    function Model(): Socket
      reads this
    {
      Socket(connected, written)
    }

    /** `NewWebsocketHandler`: no connection yet. */
    constructor (svc: DeviceService.DeviceServiceImpl)
      ensures deviceService == svc && Model() == Socket(false, []) && !reading
    {
      deviceService := svc;
      connected := false;
      written := [];
      reading := false;
    }

    /** `MainRoute` after a successful upgrade: the connection is stored and
        its loop starts reading. */
    method Upgrade()
      modifies this
      ensures Model() == Socket(true, old(written)) && reading
    {
      connected := true;
      reading := true;
    }

    method PublishToWebsocket(m: Envelope<DeviceBody>)
      modifies this
      ensures Model() == Publish(old(Model()), m)
    {
      if !connected {
        return;
      }
      written := written + [m];
    }

    /** The goroutine that forwards every stored state as a
        `DEVICE_STATE_UPDATE`, serializing each in turn; `times` are the
        instants it reads the clock. */
    method ForwardDeviceUpdates(updates: seq<DeviceState>, times: seq<int>)
      requires |times| == |updates|
      modifies this
      ensures Model() == PublishAll(old(Model()), StateMessages(updates, times))
    {
      ghost var start := Model();
      for i := 0 to |updates|
        invariant Model() == PublishAll(start, StateMessages(updates, times)[..i])
      {
        var body := SerializedDevice.SerializeDevice(updates[i]);
        var m := Envelope(DeviceStateUpdate, DeviceUpdate(body), times[i]);
        PublishAllWrites(start, StateMessages(updates, times)[..i]);
        PublishAllWrites(start, StateMessages(updates, times)[..i + 1]);
        assert StateMessages(updates, times)[..i + 1] == StateMessages(updates, times)[..i] + [m];
        PublishToWebsocket(m);
      }
      assert StateMessages(updates, times)[..|updates|] == StateMessages(updates, times);
    }

    /** `messageHandler`: the call the message asks for is made on the
        service. */
    method MessageHandler(m: Envelope<DeviceBody>, draws: Draws) returns (panicked: bool)
      modifies deviceService
      ensures deviceService.Model() == Handle(old(deviceService.Model()), m, draws).next
      ensures panicked == Handle(old(deviceService.Model()), m, draws).panicked
    {
      panicked := false;
      match Dispatch(m)
      case ChangeRate(interval) => deviceService.UpdateGetSensorDataInterval(interval);
      case NewId => deviceService.ResetDeviceState(draws.serial);
      case NewSlot => deviceService.GenerateNewSlot();
      case EnrollSlot(slotID) => var _, p := deviceService.Enroll(slotID, draws.key, draws.enrollment); panicked := p;
      case ReenrollSlot(slotID) => var _ := deviceService.Reenroll(slotID, draws.renewal);
      case ConnectProvider(provider, slotID) => var _ := deviceService.ConnectCloudProvider(provider, slotID, draws.connectErr);
      case NoRequest =>
    }

    /** One turn of `MainRoute`'s loop: the message is handled while the loop
        runs, and a panic in the handler ends it (the connection stays, so
        writes still go out). A read error only makes the loop try again. */
    method ReadMessage(m: Envelope<DeviceBody>, draws: Draws)
      modifies this, deviceService
      ensures Model() == old(Model())
      ensures old(reading) ==> deviceService.Model() == Handle(old(deviceService.Model()), m, draws).next &&
                               reading == !Handle(old(deviceService.Model()), m, draws).panicked
      ensures !old(reading) ==> deviceService.Model() == old(deviceService.Model()) && !reading
    {
      if !reading {
        return;
      }
      var panicked := MessageHandler(m, draws);
      if panicked {
        reading := false;
      }
    }

    /** `MainRoute`: the upgrade, then its loop over the messages the console
        sends, which runs until a handler panics. */
    method MainRoute(ms: seq<Envelope<DeviceBody>>, draws: seq<Draws>)
      requires |draws| == |ms|
      modifies this, deviceService
      ensures Model() == Socket(true, old(written))
      ensures deviceService.Model() == HandleAll(old(deviceService.Model()), ms, draws).next
      ensures reading == !HandleAll(old(deviceService.Model()), ms, draws).panicked
    {
      ghost var start := deviceService.Model();
      Upgrade();
      for i := 0 to |ms|
        invariant Model() == Socket(true, old(written))
        invariant deviceService.Model() == HandleAll(start, ms[..i], draws[..i]).next
        invariant reading == !HandleAll(start, ms[..i], draws[..i]).panicked
      {
        HandleAllAppend(start, ms[..i], draws[..i], [ms[i]], [draws[i]]);
        assert ms[..i] + [ms[i]] == ms[..i + 1] && draws[..i] + [draws[i]] == draws[..i + 1];
        ReadMessage(ms[i], draws[i]);
      }
      assert ms[..|ms|] == ms && draws[..|ms|] == draws;
    }
  }
}
