/** The JSON form of the device state the backend pushes to its console. */
module SerializedDevice {
  import opened Wrappers
  import opened GoTime
  import opened DeviceModel
  import Decimal

  datatype SerializedTelemetryData = SerializedTelemetryData(batteryLevel: int, temperature: int, humidity: int)

  /** `TelemetryData.Serialize`: the three readings, unchanged. */
  function SerializeTelemetry(t: TelemetryData): (r: SerializedTelemetryData)
    ensures r.batteryLevel == t.batteryLevel && r.temperature == t.temperature && r.humidity == t.humidity
  {
    SerializedTelemetryData(t.batteryLevel, t.temperature, t.humidity)
  }

  datatype SerializedSlot = SerializedSlot(
    id: string,
    certificate: string,
    privateKey: string,
    serialNumber: string,
    status: string,
    issuingCA: string,
    expirationDate: string)

  /** The placeholder sent instead of the slot's certificate. */
  const CertificatePlaceholder: string := "certi"

  /** `Slot.Serialize`. The certificate is always the placeholder; the key is
      its encoded PEM, or empty when the slot has none; the expiration is the
      decimal text of its Unix second. */
  function SerializeSlot(s: Slot): (r: SerializedSlot)
    ensures r.id == s.id && r.serialNumber == s.serialNumber && r.issuingCA == s.issuingCA
    ensures r.status == SlotStatusName(s.status)
    ensures r.certificate == CertificatePlaceholder
    ensures r.privateKey == "" <==> s.privateKey.None?
    ensures s.privateKey.Some? ==> r.privateKey == s.privateKey.value.encodedPem
    ensures Decimal.ParseDecimal(r.expirationDate) == Some(UnixSeconds(s.expirationDate))
  {
    var key := if s.privateKey.Some? then s.privateKey.value.encodedPem else "";
    Decimal.ItoaRoundTrip(UnixSeconds(s.expirationDate));
    SerializedSlot(s.id, CertificatePlaceholder, key, s.serialNumber, SlotStatusName(s.status), s.issuingCA,
                   Decimal.Itoa(UnixSeconds(s.expirationDate)))
  }

  /** The name of the MQTT client reported for every device. */
  const MqttClientName: string := "mqtt"

  datatype SerializedDeviceState = SerializedDeviceState(
    status: string,
    serialNumber: string,
    model: string,
    telemetryData: SerializedTelemetryData,
    telemetryDataRateSeconds: int,
    slots: seq<SerializedSlot>,
    mqttClient: string,
    mqttConnected: bool)

  /** `DeviceState.Serialize`, as a value: every field copied, each slot
      serialized in place, and the fixed client name. */
  function SerializedDeviceOf(d: DeviceState): (r: SerializedDeviceState)
    ensures r.status == DeviceStatusName(d.status) && r.serialNumber == d.serialNumber && r.model == d.model
    ensures r.telemetryData == SerializeTelemetry(d.telemetryData)
    ensures r.telemetryDataRateSeconds == d.telemetryDataRateSeconds
    ensures r.mqttClient == MqttClientName && r.mqttConnected == d.mqttConnected
    ensures |r.slots| == |d.slots| && forall i :: 0 <= i < |d.slots| ==> r.slots[i] == SerializeSlot(d.slots[i])
  {
    SerializedDeviceState(DeviceStatusName(d.status), d.serialNumber, d.model, SerializeTelemetry(d.telemetryData),
                          d.telemetryDataRateSeconds,
                          seq(|d.slots|, i requires 0 <= i < |d.slots| => SerializeSlot(d.slots[i])),
                          MqttClientName, d.mqttConnected)
  }

  /** `DeviceState.Serialize`: a slice of the slots' length filled by an
      indexed loop. */
  method SerializeDevice(d: DeviceState) returns (r: SerializedDeviceState)
    ensures r == SerializedDeviceOf(d)
  {
    var serializedSlots := new SerializedSlot[|d.slots|];
    for i := 0 to |d.slots|
      invariant forall k :: 0 <= k < i ==> serializedSlots[k] == SerializeSlot(d.slots[k])
    {
      serializedSlots[i] := SerializeSlot(d.slots[i]);
    }
    r := SerializedDeviceState(DeviceStatusName(d.status), d.serialNumber, d.model, SerializeTelemetry(d.telemetryData),
                               d.telemetryDataRateSeconds, serializedSlots[..], MqttClientName, d.mqttConnected);
  }
}
