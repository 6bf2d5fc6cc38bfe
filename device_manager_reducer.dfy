/** The device console's `deviceManager` slice: the last device snapshot and
    telemetry pushed by the backend, and the most recent MQTT log entries,
    newest first. */
module DeviceManagerReducer {
  import opened Wrappers
  import opened Redux
  import opened JsNumbers
  import opened DeviceChannel
  import opened SerializedDevice
  import GoTime
  import DeviceModel
  import Decimal

  /** A telemetry field: the placeholder `-` until a first snapshot, then the
      number received. */
  datatype Shown = Dash | Value(n: int)

  datatype TelemetryView = TelemetryView(batteryLevel: Shown, humidity: Shown, temperature: Shown)

  /** A slot as the console keeps it; `expirationDate` is the `moment`'s
      millisecond value (NaN for an invalid date). */
  datatype SlotView = SlotView(
    id: string,
    status: string,
    serialNumber: string,
    certificate: string,
    privateKey: string,
    issuingCA: string,
    expirationDate: JsNumber)

  /** The device as the console keeps it; `mqttConnected` is absent before the
      first snapshot. */
  datatype DeviceView = DeviceView(
    status: string,
    serialNumber: string,
    model: string,
    slots: seq<SlotView>,
    mqttConnected: Option<bool>)

  datatype DeviceManagerState = DeviceManagerState(
    telemetryData: TelemetryView,
    device: DeviceView,
    mqttLogs: seq<MqttLog>)

  function Initial(): (s: DeviceManagerState)
    ensures s.device.status == "-" && s.device.slots == [] && s.mqttLogs == []
    ensures s.telemetryData == TelemetryView(Dash, Dash, Dash)
  {
    DeviceManagerState(TelemetryView(Dash, Dash, Dash), DeviceView("-", "-", "-", [], None), [])
  }

  /** `moment.unix(text).valueOf()`: the text read as a number of seconds,
      in milliseconds. */
  function MomentUnixMillis(text: string): (ms: JsNumber)
    ensures Decimal.ParseDecimal(text).Some? ==> ms == Num(Decimal.ParseDecimal(text).value * 1000)
  {
    match NumberOfDecimal(text)
    case Num(secs) => Num(secs * 1000)
    case NaN => NaN
  }

  function SlotViewOf(s: SerializedSlot): (v: SlotView)
    ensures v.id == s.id && v.status == s.status && v.serialNumber == s.serialNumber
    ensures v.certificate == s.certificate && v.privateKey == s.privateKey && v.issuingCA == s.issuingCA
    ensures v.expirationDate == MomentUnixMillis(s.expirationDate)
  {
    SlotView(s.id, s.status, s.serialNumber, s.certificate, s.privateKey, s.issuingCA, MomentUnixMillis(s.expirationDate))
  }

  /** The snapshot's `device` part: the slots mapped one for one, in order. */
  function DeviceViewOf(d: SerializedDeviceState): (v: DeviceView)
    ensures v.status == d.status && v.serialNumber == d.serialNumber && v.model == d.model
    ensures v.mqttConnected == Some(d.mqttConnected)
    ensures |v.slots| == |d.slots| && forall k :: 0 <= k < |d.slots| ==> v.slots[k] == SlotViewOf(d.slots[k])
  {
    DeviceView(d.status, d.serialNumber, d.model,
               seq(|d.slots|, k requires 0 <= k < |d.slots| => SlotViewOf(d.slots[k])),
               Some(d.mqttConnected))
  }

  function TelemetryViewOf(t: SerializedTelemetryData): TelemetryView
  {
    TelemetryView(Value(t.batteryLevel), Value(t.humidity), Value(t.temperature))
  }

  /** How many earlier entries survive a new one. */
  const LogKeep: nat := 20

  function Min(a: int, b: int): int
  {
    if a <= b then a else b
  }

  /** `[entry, ...logs.slice(0, 20)]`. */
  function AppendLog(logs: seq<MqttLog>, entry: MqttLog): (r: seq<MqttLog>)
    ensures |r| == 1 + Min(LogKeep, |logs|) && r[0] == entry
    ensures r[1..] == logs[..Min(LogKeep, |logs|)]
  {
    [entry] + logs[..Min(LogKeep, |logs|)]
  }

  /** `deviceManagerReducer`. A `DEVICE_UPDATED` replaces the device and the
      telemetry by the snapshot's; an `MQTT_LOG` puts its entry in front of
      the twenty newest kept; anything else, including a message of the wrong
      shape, leaves the state alone. */
  function Reduce(tags: DeviceTags, s: DeviceManagerState, a: Action<DeviceBody>): (r: DeviceManagerState)
    ensures a.actionType == tags.deviceUpdated && a.value.Some? && a.value.value.message.DeviceUpdate? ==>
              var d := a.value.value.message.device;
              r == DeviceManagerState(TelemetryViewOf(d.telemetryData), DeviceViewOf(d), s.mqttLogs)
    ensures a.actionType != tags.deviceUpdated && a.actionType == tags.mqttLog &&
            a.value.Some? && a.value.value.message.MqttLogBody? ==>
              r == s.(mqttLogs := AppendLog(s.mqttLogs, a.value.value.message.log))
    ensures a.actionType != tags.deviceUpdated && a.actionType != tags.mqttLog ==> r == s
  {
    if a.actionType == tags.deviceUpdated then
      if a.value.Some? && a.value.value.message.DeviceUpdate? then
        var d := a.value.value.message.device;
        DeviceManagerState(TelemetryViewOf(d.telemetryData), DeviceViewOf(d), s.mqttLogs)
      else s
    else if a.actionType == tags.mqttLog then
      if a.value.Some? && a.value.value.message.MqttLogBody? then
        s.(mqttLogs := AppendLog(s.mqttLogs, a.value.value.message.log))
      else s
    else s
  }

  function RunAll(tags: DeviceTags, s: DeviceManagerState, acts: seq<Action<DeviceBody>>): DeviceManagerState
    decreases |acts|
  {
    if acts == [] then s else RunAll(tags, Reduce(tags, s, acts[0]), acts[1..])
  }

  /** Whatever happens, the log holds at most twenty-one entries. */
  lemma {:induction false} LogStaysBounded(tags: DeviceTags, s: DeviceManagerState, acts: seq<Action<DeviceBody>>)
    requires |s.mqttLogs| <= LogKeep + 1
    ensures |RunAll(tags, s, acts).mqttLogs| <= LogKeep + 1
    decreases |acts|
  {
    if acts != [] {
      LogStaysBounded(tags, Reduce(tags, s, acts[0]), acts[1..]);
    }
  }

  function Reverse<T>(s: seq<T>): (r: seq<T>)
    ensures |r| == |s|
    decreases |s|
  {
    if s == [] then [] else [s[|s| - 1]] + Reverse(s[..|s| - 1])
  }

  /** The log after the given entries, oldest first, were appended to `logs`. */
  function LogsAfter(logs: seq<MqttLog>, entries: seq<MqttLog>): seq<MqttLog>
    decreases |entries|
  {
    if entries == [] then logs
    else AppendLog(LogsAfter(logs, entries[..|entries| - 1]), entries[|entries| - 1])
  }

  /** Starting from the empty log, the log holds exactly the twenty-one most
      recent entries, newest first. */
  lemma {:induction false} LogIsMostRecent(entries: seq<MqttLog>)
    ensures LogsAfter([], entries) == Reverse(entries)[..Min(LogKeep + 1, |entries|)]
    decreases |entries|
  {
    if entries != [] {
      var n := |entries| - 1;
      var earlier := entries[..n];
      var e := entries[n];
      LogIsMostRecent(earlier);
      var r := LogsAfter([], earlier);
      assert Reverse(entries) == [e] + Reverse(earlier);
      assert r[..Min(LogKeep, |r|)] == Reverse(earlier)[..Min(LogKeep, n)];
      assert ([e] + Reverse(earlier))[..Min(LogKeep + 1, n + 1)] == [e] + Reverse(earlier)[..Min(LogKeep, n)];
    }
  }

  /** A snapshot that the backend serialized from its state is shown field
      for field: the identity status and MQTT flag it holds, each slot in place
      with its status name and key presence, and each expiration as the
      millisecond of the backend's Unix second; the log is kept. */
  lemma ShowsServerDevice(tags: DeviceTags, s: DeviceManagerState, d: DeviceModel.DeviceState, t: int)
    ensures var r := Reduce(tags, s, Action(tags.deviceUpdated, Some(Envelope(DeviceStateUpdate, DeviceUpdate(SerializedDeviceOf(d)), t))));
            && r.mqttLogs == s.mqttLogs
            && r.device.status == DeviceModel.DeviceStatusName(d.status)
            && r.device.mqttConnected == Some(d.mqttConnected)
            && |r.device.slots| == |d.slots|
            && (forall k :: 0 <= k < |d.slots| ==>
                  && r.device.slots[k].id == d.slots[k].id
                  && r.device.slots[k].status == DeviceModel.SlotStatusName(d.slots[k].status)
                  && (r.device.slots[k].privateKey == "" <==> d.slots[k].privateKey.None?)
                  && r.device.slots[k].expirationDate == Num(GoTime.UnixSeconds(d.slots[k].expirationDate) * 1000))
            && r.telemetryData == TelemetryView(Value(d.telemetryData.batteryLevel), Value(d.telemetryData.humidity),
                                                Value(d.telemetryData.temperature))
  {
  }
}
