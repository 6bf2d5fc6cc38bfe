/** The virtual DMS's state records and their JSON serializations
    (`DMSState`, `EnrollmentInProcess`, `EnrolledIdentity`), and the bodies of
    the messages exchanged on the DMS websocket. Instants are Unix nanoseconds
    and durations nanoseconds, as Go's `time` package keeps them. */
module DmsModel {
  import opened Wrappers
  import opened GoTime

  datatype DmsStatus = Empty | AwaitingAuth | Idle | Enrolling

  function DmsStatusName(s: DmsStatus): string
  {
    match s
    case Empty => "EMPTY"
    case AwaitingAuth => "AWAITING_AUTH"
    case Idle => "IDLE"
    case Enrolling => "ENROLLING"
  }

  /** The enrollment status tags; `Unset` is Go's zero value, the empty string. */
  datatype EnrollmentStatus = Unset | Step1 | Step2 | Step3 | Step4

  function EnrollmentStatusName(s: EnrollmentStatus): string
  {
    match s
    case Unset => ""
    case Step1 => "STEP_1"
    case Step2 => "STEP_2"
    case Step3 => "STEP_3"
    case Step4 => "STEP_4"
  }

  /** The ordinal of a step tag: `STEP_n` is step n. */
  function StepNumber(s: EnrollmentStatus): nat
  {
    match s
    case Unset => 0
    case Step1 => 1
    case Step2 => 2
    case Step3 => 3
    case Step4 => 4
  }

  /** The distinguished-name attributes the DMS reads from an X.509 subject. */
  datatype Subject = Subject(
    country: seq<string>,
    province: seq<string>,
    locality: seq<string>,
    organization: seq<string>,
    organizationalUnit: seq<string>,
    commonName: string)

  /** The parts of an issued X.509 certificate the DMS uses; `serialNumber` is
      the colon-separated hexadecimal text the DMS displays. */
  datatype Certificate = Certificate(
    subject: Subject,
    issuerCommonName: string,
    serialNumber: string,
    notBefore: int,
    notAfter: int)

  datatype DmsState = DmsState(
    status: DmsStatus,
    name: string,
    certificate: Option<Certificate>,
    privateKey: Option<string>,
    authorizedCAs: Option<seq<string>>,
    selectedCA: string,
    automaticEnrollment: bool,
    automaticCertificateTransfer: bool)

  /** The state the process starts in. */
  function InitialDms(): DmsState
  {
    DmsState(Empty, "", None, None, None, "", false, false)
  }

  datatype DmsStateSerialized = DmsStateSerialized(
    status: string,
    name: string,
    authorizedCAs: seq<string>,
    selectedCA: string,
    automaticEnrollment: bool,
    automaticCertificateTransfer: bool)

  /** `DMSState.Serialize`: a nil CA list is written as an empty list, never as
      `null`; the certificate and the key are not part of the message. */
  function SerializeDms(s: DmsState): (r: DmsStateSerialized)
    ensures s.authorizedCAs.None? ==> r.authorizedCAs == []
    ensures s.authorizedCAs.Some? ==> r.authorizedCAs == s.authorizedCAs.value
    ensures r.status == DmsStatusName(s.status) && r.name == s.name && r.selectedCA == s.selectedCA
    ensures r.automaticEnrollment == s.automaticEnrollment
    ensures r.automaticCertificateTransfer == s.automaticCertificateTransfer
  {
    var cas := if s.authorizedCAs.Some? then s.authorizedCAs.value else [];
    DmsStateSerialized(DmsStatusName(s.status), s.name, cas, s.selectedCA,
                       s.automaticEnrollment, s.automaticCertificateTransfer)
  }

  /** Two states that differ only in what the message leaves out (certificate,
      key, and nil against an empty CA list) serialize alike. */
  lemma SerializeDmsForgets(s: DmsState, t: DmsState)
    requires s.status == t.status && s.name == t.name && s.selectedCA == t.selectedCA
    requires s.automaticEnrollment == t.automaticEnrollment
    requires s.automaticCertificateTransfer == t.automaticCertificateTransfer
    requires s.authorizedCAs.GetOr([]) == t.authorizedCAs.GetOr([])
    ensures SerializeDms(s) == SerializeDms(t)
  {
  }

  datatype EnrollmentInProcess = EnrollmentInProcess(
    status: EnrollmentStatus,
    requestingDate: int,
    deviceModel: string,
    issuingCA: string,
    deviceId: string,
    deviceSlot: string,
    csrSubject: Option<Subject>,
    authorizedEnrollment: bool,
    certificate: Option<Certificate>,
    serialNumber: string,
    expirationDate: int,
    authorizedCertificateTransfer: bool)

  datatype EnrollmentSerialized = EnrollmentSerialized(
    status: string,
    requestingDate: int,
    deviceModel: string,
    issuingCA: string,
    deviceId: string,
    deviceSlot: string,
    certificateRequest: string,
    authorizedEnrollment: bool,
    certificate: string,
    serialNumber: string,
    expirationDate: int,
    authorizedCertificateTransfer: bool)

  /** One `KEY=value/` part of a subject line, present when the attribute has a value. */
  function Attribute(key: string, values: seq<string>): string
  {
    if |values| > 0 then key + "=" + values[0] + "/" else ""
  }

  /** A subject line with the given `OU` part in its place. */
  function Line(s: Subject, ouPart: string): string
  {
    Attribute("C", s.country) + Attribute("ST", s.province) + Attribute("L", s.locality)
    + Attribute("O", s.organization) + ouPart + "CN=" + s.commonName
  }

  /** The subject line the DMS shows: the first value of each of C, ST, L, O and
      OU that is present, each followed by `/`, then `CN=` and the common name. */
  function SubjectText(s: Subject): string
  {
    Line(s, Attribute("OU", s.organizationalUnit))
  }

  /** What Go does that the model keeps as a value: an index out of range panics. */
  datatype Panic = IndexOutOfRange

  /** The subject line as the code builds it: the `OU=` part is guarded by the
      length of the Country list instead of the OU list. */
  function SubjectTextAsWritten(s: Subject): Result<string, Panic>
  {
    if |s.country| > 0 && |s.organizationalUnit| == 0 then Err(IndexOutOfRange)
    else Ok(Line(s, if |s.country| > 0 then "OU=" + s.organizationalUnit[0] + "/" else ""))
  }

  /** The code as written gives the intended line exactly when Country and OU are
      both present or both absent; otherwise it panics or drops the OU part. */
  lemma SubjectGuardAgreement(s: Subject)
    ensures SubjectTextAsWritten(s) == Ok(SubjectText(s)) <==> (|s.country| > 0 <==> |s.organizationalUnit| > 0)
  {
    if |s.country| == 0 && |s.organizationalUnit| > 0 {
      assert |Line(s, "")| < |Line(s, Attribute("OU", s.organizationalUnit))|;
    } else if |s.country| > 0 && |s.organizationalUnit| > 0 {
      assert Attribute("OU", s.organizationalUnit) == "OU=" + s.organizationalUnit[0] + "/" by {
        assert "OU" + "=" == "OU=";
      }
    }
  }

  /** A subject with a country and no organizational unit makes the code panic. */
  lemma OuGuardPanics()
    ensures SubjectTextAsWritten(Subject(["ES"], [], [], [], [], "dev")) == Err(IndexOutOfRange)
    ensures SubjectText(Subject(["ES"], [], [], [], [], "dev")) == "C=ES/CN=dev"
  {
    assert Attribute("C", ["ES"]) == "C=ES/";
  }

  /** The subject the virtual device puts in its certificate requests. */
  function DeviceSubject(commonName: string): Subject
  {
    Subject(["ES"], ["Gipuzkoa"], ["Donostia"], ["Lamassu"], ["IT"], commonName)
  }

  /** That subject has every attribute, so both versions agree on it. */
  lemma DeviceSubjectAgrees(commonName: string)
    ensures SubjectTextAsWritten(DeviceSubject(commonName)) == Ok(SubjectText(DeviceSubject(commonName)))
    ensures SubjectText(DeviceSubject(commonName)) == "C=ES/ST=Gipuzkoa/L=Donostia/O=Lamassu/OU=IT/CN=" + commonName
  {
    var s := DeviceSubject(commonName);
    SubjectGuardAgreement(s);
    var c, st, l, o, ou := Attribute("C", s.country), Attribute("ST", s.province), Attribute("L", s.locality),
                           Attribute("O", s.organization), Attribute("OU", s.organizationalUnit);
    assert c == "C=ES/";
    assert st == "ST=Gipuzkoa/";
    assert l == "L=Donostia/";
    assert o == "O=Lamassu/";
    assert ou == "OU=IT/";
    DeviceSubjectPrefix();
    assert SubjectText(s) == (c + st + l + o + ou + "CN=") + commonName;
  }

  lemma DeviceSubjectPrefix()
    ensures "C=ES/" + "ST=Gipuzkoa/" + "L=Donostia/" + "O=Lamassu/" + "OU=IT/" + "CN="
            == "C=ES/ST=Gipuzkoa/L=Donostia/O=Lamassu/OU=IT/CN="
  {
  }

  function SubjectTextOf(s: Option<Subject>): string
  {
    if s.Some? then SubjectText(s.value) else ""
  }

  /** `EnrollmentInProcess.Serialize`, with the OU guard corrected: a missing
      CSR or certificate is written as the empty string. */
  function SerializeEnrollment(p: EnrollmentInProcess): (r: EnrollmentSerialized)
    ensures p.csrSubject.None? <==> r.certificateRequest == ""
    ensures p.certificate.None? <==> r.certificate == ""
    ensures r.status == EnrollmentStatusName(p.status)
  {
    assert forall s: Subject :: SubjectText(s) != "" by {
      forall s: Subject ensures |SubjectText(s)| >= 3 { }
    }
    EnrollmentSerialized(
      EnrollmentStatusName(p.status), p.requestingDate, p.deviceModel, p.issuingCA,
      p.deviceId, p.deviceSlot, SubjectTextOf(p.csrSubject), p.authorizedEnrollment,
      SubjectTextOf(if p.certificate.Some? then Some(p.certificate.value.subject) else None),
      p.serialNumber, p.expirationDate, p.authorizedCertificateTransfer)
  }

  /** `EnrollmentInProcess.Serialize` as written: it panics when either subject
      has a country but no organizational unit. */
  function SerializeEnrollmentAsWritten(p: EnrollmentInProcess): (r: Result<EnrollmentSerialized, Panic>)
    ensures r.Err? <==> (p.csrSubject.Some? && SubjectTextAsWritten(p.csrSubject.value).Err?) ||
                        (p.certificate.Some? && SubjectTextAsWritten(p.certificate.value.subject).Err?)
    ensures r.Ok? ==> r.value.(certificateRequest := "", certificate := "")
                      == SerializeEnrollment(p).(certificateRequest := "", certificate := "")
    ensures r.Ok? ==> (r.value.certificateRequest == "" <==> p.csrSubject.None?) &&
                      (r.value.certificate == "" <==> p.certificate.None?)
  {
    assert forall s: Subject, ou: string :: Line(s, ou) != "" by {
      forall s: Subject, ou: string ensures |Line(s, ou)| >= 3 { }
    }
    var csr := if p.csrSubject.Some? then SubjectTextAsWritten(p.csrSubject.value) else Ok("");
    var crt := if p.certificate.Some? then SubjectTextAsWritten(p.certificate.value.subject) else Ok("");
    if csr.Err? || crt.Err? then Err(IndexOutOfRange)
    else Ok(SerializeEnrollment(p).(certificateRequest := csr.value, certificate := crt.value))
  }

  /** When neither subject mixes up Country and OU, both serializations agree. */
  lemma SerializeEnrollmentAgreement(p: EnrollmentInProcess)
    requires p.csrSubject.Some? ==> (|p.csrSubject.value.country| > 0 <==> |p.csrSubject.value.organizationalUnit| > 0)
    requires p.certificate.Some? ==> (|p.certificate.value.subject.country| > 0 <==> |p.certificate.value.subject.organizationalUnit| > 0)
    ensures SerializeEnrollmentAsWritten(p) == Ok(SerializeEnrollment(p))
  {
    if p.csrSubject.Some? {
      SubjectGuardAgreement(p.csrSubject.value);
    }
    if p.certificate.Some? {
      SubjectGuardAgreement(p.certificate.value.subject);
    }
  }

  datatype EnrolledIdentity = EnrolledIdentity(
    enrolledTimestamp: int,
    serialNumber: string,
    deviceId: string,
    deviceSlot: string,
    issuingCA: string,
    issuingDuration: int)

  datatype EnrolledIdentitySerialized = EnrolledIdentitySerialized(
    enrolledTimestamp: int,
    serialNumber: string,
    deviceId: string,
    deviceSlot: string,
    issuingCA: string,
    issuingDuration: int)

  function SerializeIdentity(i: EnrolledIdentity): EnrolledIdentitySerialized
  {
    EnrolledIdentitySerialized(UnixMilli(i.enrolledTimestamp), i.serialNumber, i.deviceId,
                               i.deviceSlot, i.issuingCA, DurationSeconds(i.issuingDuration))
  }

  /** A validity period of whole seconds is reported as exactly that many seconds,
      and a timestamp of whole milliseconds as exactly that many milliseconds. */
  lemma SerializeIdentityExact(i: EnrolledIdentity, ms: int, secs: int)
    requires i.enrolledTimestamp == ms * NanosPerMilli
    requires i.issuingDuration == secs * NanosPerSecond
    ensures SerializeIdentity(i).enrolledTimestamp == ms
    ensures SerializeIdentity(i).issuingDuration == secs
  {
  }

  /** The loop that serializes the identity list for `ENROLLED_IDENTITES_UPDATE`:
      one entry per identity, in order. */
  method SerializeIdentities(ids: seq<EnrolledIdentity>) returns (r: seq<EnrolledIdentitySerialized>)
    ensures |r| == |ids|
    ensures forall k :: 0 <= k < |ids| ==> r[k] == SerializeIdentity(ids[k])
  {
    r := [];
    var k := 0;
    while k < |ids|
      invariant 0 <= k <= |ids|
      invariant |r| == k
      invariant forall j :: 0 <= j < k ==> r[j] == SerializeIdentity(ids[j])
    {
      r := r + [SerializeIdentity(ids[k])];
      k := k + 1;
    }
  }

  /** The bodies carried on the DMS websocket. A command body is a JSON object
      whose fields may be missing; `Absent` is a message with no body at all. */
  datatype DmsBody =
    | Absent
    | Fields(
        operatorUsername: Option<string>,
        operatorPassword: Option<string>,
        dmsName: Option<string>,
        selectedCA: Option<string>,
        autoEnroll: Option<bool>,
        autoTransfer: Option<bool>)
    | DmsUpdateBody(dms: DmsStateSerialized)
    | EnrollingBody(process: EnrollmentSerialized)
    | IdentitiesBody(identities: seq<EnrolledIdentitySerialized>)
    | ErrorBody(text: string)

  function NoFields(): DmsBody
  {
    Fields(None, None, None, None, None, None)
  }

  /** Go's `json.Unmarshal` into a struct: a field the body lacks keeps its zero value. */
  function SelectedCAOf(b: DmsBody): string
  {
    if b.Fields? then b.selectedCA.GetOr("") else ""
  }

  function DmsNameOf(b: DmsBody): string
  {
    if b.Fields? then b.dmsName.GetOr("") else ""
  }

  function AutoEnrollOf(b: DmsBody): bool
  {
    b.Fields? && b.autoEnroll.GetOr(false)
  }

  function AutoTransferOf(b: DmsBody): bool
  {
    b.Fields? && b.autoTransfer.GetOr(false)
  }

  const GetCfg: string := "GET_CFG"
  const Cfg: string := "CFG"
  const CfgSelectedCA: string := "CFG_SELECTED_CA_FOR_ENROLLMENT"
  const CfgAutoEnrollment: string := "CFG_AUTO_ENROLLMENT"
  const CfgAutoTransfer: string := "CFG_AUTO_TRANSFER"
  const AuthEnroll: string := "AUTH_ENROLL"
  const AuthTransfer: string := "AUTH_TRANSFER"
  const DmsUpdate: string := "DMS_UPDATE"
  const ErrorType: string := "ERROR"
  const EnrollingProcessUpdate: string := "ENROLLING_PROCESS_UPDATE"
  const EnrolledIdentitiesUpdate: string := "ENROLLED_IDENTITES_UPDATE"
}
