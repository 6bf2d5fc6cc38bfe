/** The messages on the device's websocket: the commands the console sends,
    the state and MQTT log entries it receives, and the console's own action
    names for the latter. */
module DeviceChannel {
  import opened Wrappers
  import SerializedDevice

  /** One entry of the MQTT log shown by the console. */
  datatype MqttLog = MqttLog(logType: string, title: string, message: string, timestamp: int)

  /** The `message` of an envelope: a command's fields (each possibly absent),
      a serialized device state, or an MQTT log entry. */
  datatype DeviceBody =
    | Command(newRate: Option<int>, slotId: Option<string>, provider: Option<string>)
    | DeviceUpdate(device: SerializedDevice.SerializedDeviceState)
    | MqttLogBody(log: MqttLog)

  /** The empty object `{}`. */
  function NoFields(): DeviceBody
  {
    Command(None, None, None)
  }

  /** Go's `json.Unmarshal` into a struct: an absent field keeps its zero value. */
  function NewRateOf(b: DeviceBody): int
  {
    if b.Command? then b.newRate.GetOr(0) else 0
  }

  function SlotIdOf(b: DeviceBody): string
  {
    if b.Command? then b.slotId.GetOr("") else ""
  }

  const ChangeTelemetryDataRate: string := "CHANGE_TELEMETRY_DATA_RATE"
  const GenNewId: string := "GEN_NEW_ID"
  const GenNewSlot: string := "GEN_NEW_SLOT"
  const EnrollType: string := "ENROLL"
  const ReenrollType: string := "REENROLL"
  const MqttConnect: string := "MQTT_CONNECT"
  const MqttDisconnect: string := "MQTT_DISCONNECT"
  const DeviceStateUpdate: string := "DEVICE_STATE_UPDATE"

  /** The values of the console's `TELEMETRY_DATA`, `DEVICE_UPDATED` and
      `MQTT_LOG` action types: the file defining them is not part of this
      model, so they are parameters. */
  datatype DeviceTags = DeviceTags(telemetryData: string, deviceUpdated: string, mqttLog: string)
}
