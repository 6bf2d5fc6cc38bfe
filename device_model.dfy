/** The virtual device's state: its identity slots, its telemetry and the
    vocabulary of statuses both the backend and the console use. Keys,
    certificate requests and certificates are represented by the parts of them
    the device reads. */
module DeviceModel {
  import opened Wrappers

  datatype SlotStatus =
    | NeedsProvisioning
    | PendingProvisioning
    | Provisioned
    | NeedsReenrollment
    | ReenrollmentUnderway
    | Expired

  function SlotStatusName(st: SlotStatus): string
  {
    match st
    case NeedsProvisioning => "NEEDS_PROVISIONING"
    case PendingProvisioning => "PENDING_PROVISIONING"
    case Provisioned => "PROVISIONED"
    case NeedsReenrollment => "NEEDS_REENROLLMENT"
    case ReenrollmentUnderway => "REENROLLMENT_UNDERWAY"
    case Expired => "EXPIRED"
  }

  /** Distinct statuses have distinct names. */
  lemma SlotStatusNamesDistinct(a: SlotStatus, b: SlotStatus)
    requires SlotStatusName(a) == SlotStatusName(b)
    ensures a == b
  {
  }

  datatype DeviceStatus = Empty | WithId

  function DeviceStatusName(st: DeviceStatus): string
  {
    match st
    case Empty => "EMPTY"
    case WithId => "WITH_ID"
  }

  datatype CloudProviderType = Aws | Azure

  function CloudProviderName(p: CloudProviderType): string
  {
    match p
    case Aws => "AWS"
    case Azure => "AZURE"
  }

  /** Text that is never empty: the base64 of a PEM block always holds at least
      its header line. */
  type NonEmptyString = s: string | |s| > 0 witness "A"

  /** An RSA key, as the base64 text of its PKCS#1 PEM encoding. */
  datatype PrivateKey = PrivateKey(encodedPem: NonEmptyString)

  /** A certificate request, by the common name of its subject. */
  datatype CertificateRequest = CertificateRequest(commonName: string)

  /** An issued certificate: its serial number as displayed (hex pairs) and the
      end of its validity, in Unix nanoseconds. */
  datatype SlotCertificate = SlotCertificate(serialText: string, notAfter: int)

  datatype Slot = Slot(
    id: string,
    certificate: Option<SlotCertificate>,
    certificateRequest: Option<CertificateRequest>,
    privateKey: Option<PrivateKey>,
    serialNumber: string,
    status: SlotStatus,
    issuingCA: string,
    expirationDate: int)

  datatype TelemetryData = TelemetryData(temperature: int, humidity: int, batteryLevel: int)

  datatype DeviceState = DeviceState(
    status: DeviceStatus,
    serialNumber: string,
    model: string,
    telemetryData: TelemetryData,
    telemetryDataRateSeconds: int,
    slots: seq<Slot>,
    mqttConnected: bool)
}
