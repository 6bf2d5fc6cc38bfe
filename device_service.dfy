/** The virtual device's service: the slot list and its enrollment statuses, the
    telemetry readings and the scheduler entry that takes them. Every change
    of the device goes through the store, which hands a copy to the console
    channel. Key generation, the HTTP and EST exchanges and the MQTT client
    are represented by their outcomes. */
module DeviceService {
  import opened Wrappers
  import opened GoTime
  import opened DeviceModel
  import Decimal

  /** The service and its store. `notifications` lists, in call order, every
      state handed to the store; `jobs` maps each live scheduler entry to the
      step of its `0/N` seconds spec. */
  datatype Service = Service(
    device: DeviceState,
    notifications: seq<DeviceState>,
    jobs: map<nat, int>,
    nextEntry: nat,
    telemetryJob: Option<nat>)

  const DefaultSlotId: string := "default"
  const DeviceModelName: string := "Raspberry Pi 4"
  const DefaultTelemetryRate: int := 5

  /** A slot with nothing in it, waiting to be provisioned. */
  function EmptySlot(id: string): (s: Slot)
    ensures s.id == id && s.status == NeedsProvisioning
    ensures s.certificate.None? && s.privateKey.None? && s.serialNumber == "" && s.issuingCA == ""
  {
    Slot(id, None, None, None, "", NeedsProvisioning, "", ZeroTime)
  }

  /** `SetDeviceState`: the store keeps the state and notifies the channel. */
  function Store(s: Service, d: DeviceState): (r: Service)
    ensures r.device == d && r.notifications == s.notifications + [d]
    ensures r.jobs == s.jobs && r.nextEntry == s.nextEntry && r.telemetryJob == s.telemetryJob
  {
    s.(device := d, notifications := s.notifications + [d])
  }

  // ---------------------------------------------------------------------
  // The telemetry job

  /** The scheduler accepts `0/N * * * * *` exactly when the step `N` is a
      positive number. */
  predicate CronAccepts(interval: int)
  {
    interval > 0
  }

  /** `UpdateGetSensorDataInterval`: the previous entry is removed, then a new
      one is added at the given step. When the scheduler refuses the spec the
      service keeps the identifier of the entry it just removed. The rate shown
      on the device is not touched. */
  function UpdateInterval(s: Service, interval: int): (r: Service)
    ensures r.device == s.device && r.notifications == s.notifications
    ensures CronAccepts(interval) ==> r.telemetryJob == Some(s.nextEntry) && r.nextEntry == s.nextEntry + 1
    ensures !CronAccepts(interval) ==> r.telemetryJob == s.telemetryJob && r.nextEntry == s.nextEntry
    ensures s.telemetryJob.Some? ==> s.telemetryJob.value !in r.jobs || r.telemetryJob == s.telemetryJob
  {
    var remaining := if s.telemetryJob.Some? then s.jobs - {s.telemetryJob.value} else s.jobs;
    if CronAccepts(interval) then
      s.(jobs := remaining[s.nextEntry := interval], nextEntry := s.nextEntry + 1, telemetryJob := Some(s.nextEntry))
    else
      s.(jobs := remaining)
  }

  /** At most one telemetry entry is live, and it is the one the service
      remembers; entry identifiers are never reused. */
  predicate OneTelemetryJob(s: Service)
  {
    && (forall id :: id in s.jobs ==> s.telemetryJob == Some(id))
    && (forall id :: id in s.jobs ==> id < s.nextEntry)
    && (s.telemetryJob.Some? ==> s.telemetryJob.value < s.nextEntry)
  }

  /** After an update exactly one entry runs, at the new step; or, when the
      step is refused, none does and telemetry stops. */
  lemma UpdateIntervalLeavesOneJob(s: Service, interval: int)
    requires OneTelemetryJob(s)
    ensures OneTelemetryJob(UpdateInterval(s, interval))
    ensures CronAccepts(interval) ==>
              UpdateInterval(s, interval).jobs == map[UpdateInterval(s, interval).telemetryJob.value := interval]
    ensures !CronAccepts(interval) ==> UpdateInterval(s, interval).jobs == map[]
  {
    var r := UpdateInterval(s, interval);
    var remaining := if s.telemetryJob.Some? then s.jobs - {s.telemetryJob.value} else s.jobs;
    assert forall id :: id !in remaining;
    assert remaining == map[];
  }

  /** The range of a reading: `Intn(25)`, `Intn(50)` and `Intn(101)`. */
  predicate ReadingInRange(t: TelemetryData)
  {
    0 <= t.temperature < 25 && 0 <= t.humidity < 50 && 0 <= t.batteryLevel <= 100
  }

  /** A random draw of the three readings. */
  type Reading = t: TelemetryData | ReadingInRange(t) witness TelemetryData(0, 0, 0)

  /** `GetSensorData`: the readings are replaced and the device stored. */
  function TakeReading(s: Service, reading: Reading): (r: Service)
    ensures r.device == s.device.(telemetryData := reading)
    ensures r.notifications == s.notifications + [r.device]
    ensures ReadingInRange(r.device.telemetryData)
  {
    Store(s, s.device.(telemetryData := reading))
  }

  // ---------------------------------------------------------------------
  // The slot list

  /** The state `ResetDeviceState` builds: a new serial number, no identity,
      the default slot only, the default rate and no MQTT connection. */
  function FreshDevice(serial: string): (d: DeviceState)
    ensures d.status == Empty && d.serialNumber == serial && d.slots == [EmptySlot(DefaultSlotId)]
    ensures d.telemetryDataRateSeconds == DefaultTelemetryRate && !d.mqttConnected
    ensures d.telemetryData == TelemetryData(0, 0, 0)
  {
    DeviceState(Empty, serial, DeviceModelName, TelemetryData(0, 0, 0), DefaultTelemetryRate,
                [EmptySlot(DefaultSlotId)], false)
  }

  /** `ResetDeviceState`, with the UUID it draws as a parameter: the new device
      is stored, then the telemetry job restarts at the default rate. */
  function Reset(s: Service, serial: string): (r: Service)
    ensures r.device == FreshDevice(serial)
    ensures r.notifications == s.notifications + [FreshDevice(serial)]
    ensures r.telemetryJob == Some(s.nextEntry)
  {
    UpdateInterval(Store(s, FreshDevice(serial)), DefaultTelemetryRate)
  }

  /** `New`: the store starts empty and the service resets it at once. */
  function New(serial: string): (r: Service)
    ensures r.device == FreshDevice(serial) && r.notifications == [FreshDevice(serial)]
    ensures r.jobs == map[1 := DefaultTelemetryRate] && r.telemetryJob == Some(1)
  {
    Reset(Service(FreshDevice(serial), [], map[], 1, None), serial)
  }

  /** `GenerateNewSlot`: one empty slot is appended, named after the number of
      slots before it. */
  function AddSlot(s: Service): (r: Service)
    ensures r.device.slots == s.device.slots + [EmptySlot(Decimal.Itoa(|s.device.slots|))]
    ensures r.device == s.device.(slots := r.device.slots)
    ensures r.notifications == s.notifications + [r.device]
  {
    var slots := s.device.slots;
    Store(s, s.device.(slots := slots + [EmptySlot(Decimal.Itoa(|slots|))]))
  }

  /** `slices.IndexFunc` on the slot identifiers: the first slot with the
      identifier, or -1 when there is none. */
  function IndexOf(slots: seq<Slot>, id: string): (r: int)
    ensures -1 <= r < |slots|
    ensures r == -1 <==> forall k :: 0 <= k < |slots| ==> slots[k].id != id
    ensures r >= 0 ==> slots[r].id == id && forall k :: 0 <= k < r ==> slots[k].id != id
    decreases |slots|
  {
    if |slots| == 0 then -1
    else if slots[0].id == id then 0
    else
      var r := IndexOf(slots[1..], id);
      if r == -1 then -1 else r + 1
  }

  /** The identifiers the slot list carries when every slot came from a reset
      or from `GenerateNewSlot`: `default` first, then `1`, `2`, ... */
  predicate IdsAsGenerated(slots: seq<Slot>)
  {
    && |slots| >= 1
    && slots[0].id == DefaultSlotId
    && forall k :: 1 <= k < |slots| ==> slots[k].id == Decimal.Itoa(k)
  }

  predicate DistinctIds(slots: seq<Slot>)
  {
    forall i, j :: 0 <= i < j < |slots| ==> slots[i].id != slots[j].id
  }

  lemma ItoaIsNotDefault(k: int)
    ensures Decimal.Itoa(k) != DefaultSlotId
  {
    if k < 0 {
      assert Decimal.Itoa(k)[0] == '-';
    } else {
      assert Decimal.IsDigit(Decimal.Itoa(k)[0]);
    }
  }

  /** Generated identifiers are pairwise distinct. */
  lemma GeneratedIdsDistinct(slots: seq<Slot>)
    requires IdsAsGenerated(slots)
    ensures DistinctIds(slots)
  {
    forall i, j | 0 <= i < j < |slots|
      ensures slots[i].id != slots[j].id
    {
      ItoaIsNotDefault(j);
      if i > 0 && slots[i].id == slots[j].id {
        Decimal.ItoaInjective(i, j);
      }
    }
  }

  /** A reset followed by slot generations keeps the identifiers as generated. */
  lemma GenerateNewSlotKeepsIds(s: Service)
    requires IdsAsGenerated(s.device.slots)
    ensures IdsAsGenerated(AddSlot(s).device.slots)
  {
  }

  /** What a call of `Enroll`, `Reenroll` or `ConnectCloudProvider` leaves: the
      new service, the error it returns, and whether it panicked on the way. */
  datatype Outcome = Outcome(next: Service, err: Option<string>, panicked: bool)

  function SlotNotFound(slotID: string): string
  {
    "slot with id " + slotID + " not found"
  }

  /** The common name the device puts in a certificate request. */
  function CommonName(slotID: string, serial: string): (cn: string)
    ensures slotID == DefaultSlotId ==> cn == serial
    ensures slotID != DefaultSlotId ==> cn == slotID + ":" + serial
  {
    if slotID != DefaultSlotId then slotID + ":" + serial else serial
  }

  /** How the enrollment exchange goes after the slot turns pending: the CSR
      does not parse back, the POST to the DMS fails, its answer cannot be read,
      the certificate in it is not base64, is not PEM (its nil block is then read:
      a panic), is not a certificate, or the DMS issues one. */
  datatype EnrollOutcome =
    | CsrUnparsable(err: string)
    | PostFailed(err: string)
    | ReadFailed(err: string)
    | CertNotBase64(err: string)
    | CertNotPem
    | CertInvalid(err: string)
    | Enrolled(issuingCA: string, certificate: SlotCertificate)

  function EnrollError(outcome: EnrollOutcome): string
  {
    match outcome
    case CsrUnparsable(err) => "error parsing certificate request: " + err
    case PostFailed(err) => "error sending enrollment request: " + err
    case ReadFailed(err) => "error reading enrollment response: " + err
    case CertNotBase64(err) => "error decoding certificate: " + err
    case CertNotPem => ""
    case CertInvalid(err) => "error parsing certificate: " + err
    case Enrolled(_, _) => ""
  }

  /** The slot while its first certificate is being requested: the new key,
      no certificate. */
  function PendingSlot(slot: Slot, key: PrivateKey): (p: Slot)
    ensures p.id == slot.id && p.status == PendingProvisioning
    ensures p.privateKey == Some(key) && p.certificate.None?
  {
    slot.(privateKey := Some(key), certificate := None, status := PendingProvisioning)
  }

  /** `Enroll`, with the key it generates and the outcome of the exchange as
      parameters. An unknown slot is an error and changes nothing. Otherwise
      the slot turns pending with the new key and is stored; an issued
      certificate then makes it provisioned, with the request, the serial
      number, the issuer and the expiration of the certificate, and it is
      stored again; on any failure it stays pending. */
  function EnrollSlot(s: Service, slotID: string, key: PrivateKey, outcome: EnrollOutcome): (o: Outcome)
    ensures IndexOf(s.device.slots, slotID) == -1 ==> o == Outcome(s, Some(SlotNotFound(slotID)), false)
    ensures IndexOf(s.device.slots, slotID) >= 0 ==>
              var idx := IndexOf(s.device.slots, slotID);
              var slot := s.device.slots[idx];
              && o.next.device == s.device.(slots := o.next.device.slots)
              && o.next.jobs == s.jobs && o.next.telemetryJob == s.telemetryJob && o.next.nextEntry == s.nextEntry
              && |o.next.device.slots| == |s.device.slots|
              && (forall k :: 0 <= k < |s.device.slots| && k != idx ==> o.next.device.slots[k] == s.device.slots[k])
              && (o.panicked <==> outcome == CertNotPem)
              && (o.err.None? <==> outcome.Enrolled? || outcome == CertNotPem)
              && (!outcome.Enrolled? ==> o.next.device.slots[idx] == PendingSlot(slot, key) && |o.next.notifications| == |s.notifications| + 1)
              && (outcome.Enrolled? ==>
                    o.next.device.slots[idx] ==
                      PendingSlot(slot, key).(
                        certificateRequest := Some(CertificateRequest(CommonName(slot.id, s.device.serialNumber))),
                        certificate := Some(outcome.certificate), serialNumber := outcome.certificate.serialText,
                        issuingCA := outcome.issuingCA, expirationDate := outcome.certificate.notAfter,
                        status := Provisioned) &&
                    |o.next.notifications| == |s.notifications| + 2)
  {
    var idx := IndexOf(s.device.slots, slotID);
    if idx == -1 then Outcome(s, Some(SlotNotFound(slotID)), false)
    else
      var pending := PendingSlot(s.device.slots[idx], key);
      var s1 := Store(s, s.device.(slots := s.device.slots[idx := pending]));
      match outcome
      case Enrolled(issuingCA, crt) =>
        var cn := CommonName(pending.id, s1.device.serialNumber);
        var done := pending.(certificateRequest := Some(CertificateRequest(cn)), certificate := Some(crt),
                             serialNumber := crt.serialText, issuingCA := issuingCA,
                             expirationDate := crt.notAfter, status := Provisioned);
        Outcome(Store(s1, s1.device.(slots := s1.device.slots[idx := done])), None, false)
      case CertNotPem => Outcome(s1, None, true)
      case _ => Outcome(s1, Some(EnrollError(outcome)), false)
  }

  /** How a renewal goes after the slot is marked underway. */
  datatype ReenrollOutcome =
    | GatewayUrlInvalid(err: string)
    | EstClientFailed(err: string)
    | ReenrollFailed(err: string)
    | Reenrolled(certificate: SlotCertificate)

  function ReenrollError(outcome: ReenrollOutcome): string
  {
    match outcome
    case GatewayUrlInvalid(err) => "error parsing lamassu gateway url: " + err
    case EstClientFailed(err) => "error creating EST client: " + err
    case ReenrollFailed(err) => "error reenrolling: " + err
    case Reenrolled(_) => ""
  }

  /** `Reenroll`. An unknown slot is an error and changes nothing. Otherwise the
      slot is marked `REENROLLMENT_UNDERWAY` and stored; a renewed certificate
      makes it provisioned again with that certificate's serial number and
      expiration (its key, request and issuer stay), and it is stored again; on
      a failure it stays underway. */
  function ReenrollSlot(s: Service, slotID: string, outcome: ReenrollOutcome): (o: Outcome)
    ensures !o.panicked
    ensures IndexOf(s.device.slots, slotID) == -1 ==> o == Outcome(s, Some(SlotNotFound(slotID)), false)
    ensures IndexOf(s.device.slots, slotID) >= 0 ==>
              var idx := IndexOf(s.device.slots, slotID);
              var slot := s.device.slots[idx];
              && o.next.device == s.device.(slots := o.next.device.slots)
              && o.next.jobs == s.jobs && o.next.telemetryJob == s.telemetryJob && o.next.nextEntry == s.nextEntry
              && |o.next.device.slots| == |s.device.slots|
              && (forall k :: 0 <= k < |s.device.slots| && k != idx ==> o.next.device.slots[k] == s.device.slots[k])
              && (o.err.None? <==> outcome.Reenrolled?)
              && (!outcome.Reenrolled? ==> o.next.device.slots[idx] == slot.(status := ReenrollmentUnderway))
              && (outcome.Reenrolled? ==>
                    o.next.device.slots[idx] ==
                      slot.(certificate := Some(outcome.certificate), serialNumber := outcome.certificate.serialText,
                            expirationDate := outcome.certificate.notAfter, status := Provisioned))
  {
    var idx := IndexOf(s.device.slots, slotID);
    if idx == -1 then Outcome(s, Some(SlotNotFound(slotID)), false)
    else
      var underway := s.device.slots[idx].(status := ReenrollmentUnderway);
      var s1 := Store(s, s.device.(slots := s.device.slots[idx := underway]));
      match outcome
      case Reenrolled(crt) =>
        var done := underway.(certificate := Some(crt), serialNumber := crt.serialText,
                              expirationDate := crt.notAfter, status := Provisioned);
        Outcome(Store(s1, s1.device.(slots := s1.device.slots[idx := done])), None, false)
      case _ => Outcome(s1, Some(ReenrollError(outcome)), false)
  }

  /** `ConnectCloudProvider`, with the error of the MQTT connection as a
      parameter. An unknown slot or a failed connection is an error; the
      subscriptions that follow a connection concern the MQTT client alone.
      The device state is never touched: in particular it never records the
      connection. */
  function ConnectSlot(s: Service, provider: CloudProviderType, slotID: string, connectErr: Option<string>): (o: Outcome)
    ensures o.next == s && !o.panicked
    ensures o.err.None? <==> IndexOf(s.device.slots, slotID) >= 0 && connectErr.None?
    ensures IndexOf(s.device.slots, slotID) == -1 ==> o.err == Some(SlotNotFound(slotID))
  {
    if IndexOf(s.device.slots, slotID) == -1 then Outcome(s, Some(SlotNotFound(slotID)), false)
    else if connectErr.Some? then Outcome(s, Some("error connecting to cloud provider: " + connectErr.value), false)
    else Outcome(s, None, false)
  }

  // ---------------------------------------------------------------------
  // Runs

  /** Every call the service can receive, with the values it draws. */
  datatype Call =
    | ResetCall(serial: string)
    | NewSlotCall
    | EnrollCall(slotID: string, key: PrivateKey, enrollment: EnrollOutcome)
    | ReenrollCall(slotID: string, renewal: ReenrollOutcome)
    | ConnectCall(provider: CloudProviderType, slotID: string, connectErr: Option<string>)
    | DisconnectCall
    | SensorTick(reading: Reading)
    | IntervalCall(interval: int)

  function Perform(s: Service, c: Call): Service
  {
    match c
    case ResetCall(serial) => Reset(s, serial)
    case NewSlotCall => AddSlot(s)
    case EnrollCall(slotID, key, enrollment) => EnrollSlot(s, slotID, key, enrollment).next
    case ReenrollCall(slotID, renewal) => ReenrollSlot(s, slotID, renewal).next
    case ConnectCall(provider, slotID, connectErr) => ConnectSlot(s, provider, slotID, connectErr).next
    case DisconnectCall => s
    case SensorTick(reading) => TakeReading(s, reading)
    case IntervalCall(interval) => UpdateInterval(s, interval)
  }

  function PerformAll(s: Service, calls: seq<Call>): Service
    decreases |calls|
  {
    if calls == [] then s else PerformAll(Perform(s, calls[0]), calls[1..])
  }

  /** What holds of every state the service reaches. The device never gets an
      identity status, never records an MQTT connection and keeps the default
      rate; its slots carry generated identifiers; readings are in range; at
      most one telemetry entry runs. */
  predicate Valid(s: Service)
  {
    && s.device.status == Empty
    && !s.device.mqttConnected
    && s.device.telemetryDataRateSeconds == DefaultTelemetryRate
    && IdsAsGenerated(s.device.slots)
    && ReadingInRange(s.device.telemetryData)
    && OneTelemetryJob(s)
  }

  lemma NewValid(serial: string)
    ensures Valid(New(serial))
  {
  }

  lemma PerformValid(s: Service, c: Call)
    requires Valid(s)
    ensures Valid(Perform(s, c))
  {
    match c
    case ResetCall(serial) =>
      UpdateIntervalLeavesOneJob(Store(s, FreshDevice(serial)), DefaultTelemetryRate);
    case IntervalCall(interval) =>
      UpdateIntervalLeavesOneJob(s, interval);
    case EnrollCall(slotID, key, enrollment) => EnrollKeepsValid(s, slotID, key, enrollment);
    case ReenrollCall(slotID, renewal) => ReenrollKeepsValid(s, slotID, renewal);
    case NewSlotCall => GenerateNewSlotKeepsIds(s);
    case _ =>
  }

  lemma EnrollKeepsValid(s: Service, slotID: string, key: PrivateKey, outcome: EnrollOutcome)
    requires Valid(s)
    ensures Valid(EnrollSlot(s, slotID, key, outcome).next)
  {
    var r := EnrollSlot(s, slotID, key, outcome).next;
    assert forall k :: 0 <= k < |r.device.slots| ==> r.device.slots[k].id == s.device.slots[k].id;
  }

  lemma ReenrollKeepsValid(s: Service, slotID: string, outcome: ReenrollOutcome)
    requires Valid(s)
    ensures Valid(ReenrollSlot(s, slotID, outcome).next)
  {
    var r := ReenrollSlot(s, slotID, outcome).next;
    assert forall k :: 0 <= k < |r.device.slots| ==> r.device.slots[k].id == s.device.slots[k].id;
  }

  lemma {:induction false} PerformAllValid(s: Service, calls: seq<Call>)
    requires Valid(s)
    ensures Valid(PerformAll(s, calls))
    decreases |calls|
  {
    if calls != [] {
      PerformValid(s, calls[0]);
      PerformAllValid(Perform(s, calls[0]), calls[1..]);
    }
  }

  /** Whatever the calls, slot identifiers stay pairwise distinct, so a slot
      identifier names at most one slot. */
  lemma SlotIdsStayDistinct(serial: string, calls: seq<Call>)
    ensures DistinctIds(PerformAll(New(serial), calls).device.slots)
  {
    NewValid(serial);
    PerformAllValid(New(serial), calls);
    GeneratedIdsDistinct(PerformAll(New(serial), calls).device.slots);
  }

  // ---------------------------------------------------------------------
  // The service object

  class DeviceServiceImpl {
    var device: DeviceState
    var notifications: seq<DeviceState>
    var jobs: map<nat, int>
    var nextEntry: nat
    var telemetryJob: Option<nat>

    function Model(): Service
      reads this
    {
      Service(device, notifications, jobs, nextEntry, telemetryJob)
    }

    /** `New`: the service is created and resets the device at once. */
    constructor (serial: string)
      ensures Model() == New(serial)
    {
      device := FreshDevice(serial);
      notifications := [];
      jobs := map[];
      nextEntry := 1;
      telemetryJob := None;
      new;
      ResetDeviceState(serial);
    }

    method SetDeviceState(d: DeviceState)
      modifies this
      ensures Model() == Store(old(Model()), d)
    {
      device := d;
      notifications := notifications + [d];
    }

    method UpdateGetSensorDataInterval(interval: int)
      modifies this
      ensures Model() == UpdateInterval(old(Model()), interval)
    {
      if telemetryJob.Some? {
        jobs := jobs - {telemetryJob.value};
      }
      if !CronAccepts(interval) {
        return;
      }
      jobs := jobs[nextEntry := interval];
      telemetryJob := Some(nextEntry);
      nextEntry := nextEntry + 1;
    }

    method ResetDeviceState(serial: string)
      modifies this
      ensures Model() == Reset(old(Model()), serial)
    {
      SetDeviceState(FreshDevice(serial));
      UpdateGetSensorDataInterval(DefaultTelemetryRate);
    }

    method GenerateNewSlot()
      modifies this
      ensures Model() == AddSlot(old(Model()))
    {
      SetDeviceState(device.(slots := device.slots + [EmptySlot(Decimal.Itoa(|device.slots|))]));
    }

    method GetSensorData(reading: Reading)
      modifies this
      ensures Model() == TakeReading(old(Model()), reading)
    {
      SetDeviceState(device.(telemetryData := reading));
    }

    method Enroll(slotID: string, key: PrivateKey, outcome: EnrollOutcome) returns (err: Option<string>, panicked: bool)
      modifies this
      ensures Model() == EnrollSlot(old(Model()), slotID, key, outcome).next
      ensures err == EnrollSlot(old(Model()), slotID, key, outcome).err
      ensures panicked == EnrollSlot(old(Model()), slotID, key, outcome).panicked
    {
      var idx := IndexOf(device.slots, slotID);
      if idx == -1 {
        return Some(SlotNotFound(slotID)), false;
      }
      var slot := PendingSlot(device.slots[idx], key);
      SetDeviceState(device.(slots := device.slots[idx := slot]));
      var commonName := CommonName(slot.id, device.serialNumber);
      match outcome
      case Enrolled(issuingCA, crt) =>
        slot := slot.(certificateRequest := Some(CertificateRequest(commonName)), certificate := Some(crt),
                      serialNumber := crt.serialText, issuingCA := issuingCA,
                      expirationDate := crt.notAfter, status := Provisioned);
        SetDeviceState(device.(slots := device.slots[idx := slot]));
        return None, false;
      case CertNotPem =>
        return None, true;
      case _ =>
        return Some(EnrollError(outcome)), false;
    }

    method Reenroll(slotID: string, outcome: ReenrollOutcome) returns (err: Option<string>)
      modifies this
      ensures Model() == ReenrollSlot(old(Model()), slotID, outcome).next
      ensures err == ReenrollSlot(old(Model()), slotID, outcome).err
    {
      var idx := IndexOf(device.slots, slotID);
      if idx == -1 {
        return Some(SlotNotFound(slotID));
      }
      var slot := device.slots[idx].(status := ReenrollmentUnderway);
      SetDeviceState(device.(slots := device.slots[idx := slot]));
      match outcome
      case Reenrolled(crt) =>
        slot := slot.(certificate := Some(crt), serialNumber := crt.serialText,
                      expirationDate := crt.notAfter, status := Provisioned);
        SetDeviceState(device.(slots := device.slots[idx := slot]));
        return None;
      case _ =>
        return Some(ReenrollError(outcome));
    }

    method ConnectCloudProvider(provider: CloudProviderType, slotID: string, connectErr: Option<string>) returns (err: Option<string>)
      ensures err == ConnectSlot(Model(), provider, slotID, connectErr).err
    {
      var idx := IndexOf(device.slots, slotID);
      if idx == -1 {
        return Some(SlotNotFound(slotID));
      }
      if connectErr.Some? {
        return Some("error connecting to cloud provider: " + connectErr.value);
      }
      return None;
    }
  }
}
