/** The virtual DMS backend: the singleton state the websocket handler, the
    approval job and the `/enroll` route update, and the messages it writes to
    the console. The outcomes of the PKI calls, of key and CSR decoding and of
    the EST enrollment are inputs. */
module DmsServer {
  import opened Wrappers
  import opened Redux
  import opened DmsModel
  import opened GoTime

  /** Where the `/enroll` handler stands: not running, waiting for the
      enrollment to be authorized, or waiting for the transfer to be. */
  datatype RoutePhase = NoRoute | AwaitingEnrollAuth | AwaitingTransferAuth

  /** `SingeltonInstance`, plus the messages written to the console so far.
      `approvalJobs` counts the approval jobs registered with the scheduler;
      `reading` says whether `mainRoute` still reads the console's messages
      (a handler that panicked has ended its loop while the connection it
      stored goes on taking writes). */
  datatype Server = Server(
    connected: bool,
    reading: bool,
    dms: DmsState,
    enrollment: Option<EnrollmentInProcess>,
    identities: seq<EnrolledIdentity>,
    approvalJobs: nat,
    sent: seq<Envelope<DmsBody>>,
    route: RoutePhase)

  function InitialServer(): Server
  {
    Server(false, false, InitialDms(), None, [], 0, [], NoRoute)
  }

  /** What every step keeps: messages are read only from a connection there
      is; a waiting handler has a process to wait on, and the one waiting for
      the transfer has its certificate; nothing is authorized before a
      registration has scheduled an approval job. */
  predicate Valid(s: Server)
  {
    && (s.reading ==> s.connected)
    && (s.route != NoRoute ==> s.enrollment.Some?)
    && (s.route == AwaitingTransferAuth ==> s.enrollment.Some? && s.enrollment.value.certificate.Some?)
    && (s.approvalJobs == 0 ==> s.dms.privateKey.None? && s.dms.authorizedCAs.None? && s.dms.certificate.None?)
  }

  /** `sendWebSocketMessage`: written when a console is connected, dropped otherwise. */
  function Send(s: Server, m: Envelope<DmsBody>): (r: Server)
    ensures r.(sent := s.sent) == s
    ensures s.connected ==> r.sent == s.sent + [m]
    ensures !s.connected ==> r == s
  {
    if s.connected then s.(sent := s.sent + [m]) else s
  }

  function DmsUpdateMessage(d: DmsState, now: int): Envelope<DmsBody>
  {
    Envelope(DmsUpdate, DmsUpdateBody(SerializeDms(d)), now)
  }

  function ErrorMessage(text: string, now: int): Envelope<DmsBody>
  {
    Envelope(ErrorType, ErrorBody(text), now)
  }

  /** The push of a process that `Serialize` does not panic on. */
  function ProcessUpdateMessage(p: EnrollmentInProcess, now: int): Envelope<DmsBody>
    requires SerializeEnrollmentAsWritten(p).Ok?
  {
    Envelope(EnrollingProcessUpdate, EnrollingBody(SerializeEnrollmentAsWritten(p).value), now)
  }

  /** The serialized identity list, one entry per identity, in order. */
  function SerializedIdentities(ids: seq<EnrolledIdentity>): (r: seq<EnrolledIdentitySerialized>)
    ensures |r| == |ids|
    ensures forall k :: 0 <= k < |ids| ==> r[k] == SerializeIdentity(ids[k])
  {
    seq(|ids|, k requires 0 <= k < |ids| => SerializeIdentity(ids[k]))
  }

  function IdentitiesMessage(ids: seq<EnrolledIdentity>, now: int): Envelope<DmsBody>
  {
    Envelope(EnrolledIdentitiesUpdate, IdentitiesBody(SerializedIdentities(ids)), now)
  }

  // ---------------------------------------------------------------------
  // messageHandler

  /** How the calls behind `CFG` turn out: the PKI client, the DMS creation,
      then the base64, PEM and PKCS#1 decoding of the returned key. */
  datatype RegistrationOutcome =
    | ClientFailed(err: string)
    | CreateFailed(err: string)
    | KeyNotBase64(err: string)
    | KeyNotPem
    | KeyInvalid(err: string)
    | Registered(key: string)

  /** A handler's resulting state, and whether it ended in a panic there. */
  datatype Handled = Handled(next: Server, panicked: bool)

  /** `case "CFG"`. A failure reports an `ERROR` and changes nothing; a key
      that is not PEM leaves a nil block whose bytes are read: a panic. On
      success the whole DMS state is replaced, an approval job is scheduled and
      the new state is pushed. */
  function Register(s: Server, body: DmsBody, outcome: RegistrationOutcome, now: int): (h: Handled)
    ensures h.panicked <==> outcome == KeyNotPem
    ensures !outcome.Registered? ==> h.next.(sent := s.sent) == s
    ensures outcome.Registered? ==>
              h.next.dms == DmsState(AwaitingAuth, DmsNameOf(body), None, Some(outcome.key), None, "", false, false) &&
              h.next.approvalJobs == s.approvalJobs + 1 &&
              h.next.enrollment == s.enrollment && h.next.identities == s.identities
  {
    match outcome
    case ClientFailed(err) => Handled(Send(s, ErrorMessage("Error creating DMS Client: " + err, now)), false)
    case CreateFailed(err) => Handled(Send(s, ErrorMessage("Error creating DMS Instance: " + err, now)), false)
    case KeyNotBase64(err) => Handled(Send(s, ErrorMessage("Error decoding private key: " + err, now)), false)
    case KeyNotPem => Handled(s, true)
    case KeyInvalid(err) => Handled(Send(s, ErrorMessage("Error parsing private key: " + err, now)), false)
    case Registered(key) =>
      var d := DmsState(AwaitingAuth, DmsNameOf(body), None, Some(key), None, "", false, false);
      var s1 := s.(dms := d, approvalJobs := s.approvalJobs + 1);
      Handled(Send(s1, DmsUpdateMessage(d, now)), false)
  }

  /** `messageHandler`; `outcome` is used by `CFG` alone. */
  function HandleMessage(s: Server, m: Envelope<DmsBody>, outcome: RegistrationOutcome, now: int): (h: Handled)
    ensures h.panicked ==> m.msgType == Cfg
    ensures h.next.route == s.route && h.next.identities == s.identities
    ensures h.next.connected == s.connected && h.next.reading == s.reading
  {
    if m.msgType == GetCfg then
      Handled(Send(s, DmsUpdateMessage(s.dms, now)), false)
    else if m.msgType == Cfg then
      Register(s, m.message, outcome, now)
    else if m.msgType == CfgSelectedCA then
      var ca := SelectedCAOf(m.message);
      if |ca| > 0 then
        var d := s.dms.(selectedCA := ca);
        Handled(Send(s.(dms := d), DmsUpdateMessage(d, now)), false)
      else Handled(s, false)
    else if m.msgType == CfgAutoEnrollment then
      var d := s.dms.(automaticEnrollment := AutoEnrollOf(m.message));
      Handled(Send(s.(dms := d), DmsUpdateMessage(d, now)), false)
    else if m.msgType == CfgAutoTransfer then
      var d := s.dms.(automaticCertificateTransfer := AutoTransferOf(m.message));
      Handled(Send(s.(dms := d), DmsUpdateMessage(d, now)), false)
    else if m.msgType == AuthEnroll then
      if s.enrollment.Some? then
        Handled(s.(enrollment := Some(s.enrollment.value.(authorizedEnrollment := true))), false)
      else Handled(s, false)
    else if m.msgType == AuthTransfer then
      if s.enrollment.Some? then
        Handled(s.(enrollment := Some(s.enrollment.value.(authorizedCertificateTransfer := true))), false)
      else Handled(s, false)
    else Handled(s, false)
  }

  /** Choosing an empty CA does nothing at all, not even an answer; any other
      choice is stored and echoed. */
  lemma SelectedCAAnswered(s: Server, m: Envelope<DmsBody>, outcome: RegistrationOutcome, now: int)
    requires m.msgType == CfgSelectedCA
    ensures SelectedCAOf(m.message) == "" ==> HandleMessage(s, m, outcome, now).next == s
    ensures SelectedCAOf(m.message) != "" ==>
              var r := HandleMessage(s, m, outcome, now).next;
              r.dms == s.dms.(selectedCA := SelectedCAOf(m.message)) &&
              (s.connected ==> r.sent == s.sent + [DmsUpdateMessage(r.dms, now)])
  {
  }

  /** `GET_CFG` answers with the current configuration; each automation
      switch stores the value received (absent means off) and echoes the
      resulting configuration. */
  lemma ConfigurationEchoed(s: Server, m: Envelope<DmsBody>, outcome: RegistrationOutcome, now: int)
    ensures m.msgType == GetCfg ==> HandleMessage(s, m, outcome, now) == Handled(Send(s, DmsUpdateMessage(s.dms, now)), false)
    ensures m.msgType == CfgAutoEnrollment ==>
              var d := s.dms.(automaticEnrollment := AutoEnrollOf(m.message));
              HandleMessage(s, m, outcome, now) == Handled(Send(s.(dms := d), DmsUpdateMessage(d, now)), false)
    ensures m.msgType == CfgAutoTransfer ==>
              var d := s.dms.(automaticCertificateTransfer := AutoTransferOf(m.message));
              HandleMessage(s, m, outcome, now) == Handled(Send(s.(dms := d), DmsUpdateMessage(d, now)), false)
  {
  }

  /** The two authorizations set their own flag, only while a process exists,
      and change nothing else; they are never answered. */
  lemma AuthorizationsSetFlag(s: Server, m: Envelope<DmsBody>, outcome: RegistrationOutcome, now: int)
    requires m.msgType == AuthEnroll || m.msgType == AuthTransfer
    ensures s.enrollment.None? ==> HandleMessage(s, m, outcome, now).next == s
    ensures s.enrollment.Some? && m.msgType == AuthEnroll ==>
              HandleMessage(s, m, outcome, now).next == s.(enrollment := Some(s.enrollment.value.(authorizedEnrollment := true)))
    ensures s.enrollment.Some? && m.msgType == AuthTransfer ==>
              HandleMessage(s, m, outcome, now).next == s.(enrollment := Some(s.enrollment.value.(authorizedCertificateTransfer := true)))
  {
  }

  /** A message of any type the handler does not know changes nothing. */
  lemma UnknownMessageIgnored(s: Server, m: Envelope<DmsBody>, outcome: RegistrationOutcome, now: int)
    requires m.msgType !in {GetCfg, Cfg, CfgSelectedCA, CfgAutoEnrollment, CfgAutoTransfer, AuthEnroll, AuthTransfer}
    ensures HandleMessage(s, m, outcome, now) == Handled(s, false)
  {
  }

  /** Each successful registration schedules one more approval job; none is
      ever removed. */
  lemma RegistrationsAccumulateJobs(s: Server, m1: Envelope<DmsBody>, m2: Envelope<DmsBody>, k1: string, k2: string, t1: int, t2: int)
    requires m1.msgType == Cfg && m2.msgType == Cfg
    ensures HandleMessage(HandleMessage(s, m1, Registered(k1), t1).next, m2, Registered(k2), t2).next.approvalJobs
              == s.approvalJobs + 2
  {
  }

  // ---------------------------------------------------------------------
  // The approval job

  /** What `GetDMSByName` answers. */
  datatype DmsLookup = LookupFailed(err: string) | NotApproved | Approved(cas: seq<string>, certificate: Certificate)

  /** One run of an approval job (with no job scheduled, none runs). The job is
      never removed, so an approved DMS goes back to `IDLE` on every run, even
      in the middle of an enrollment. */
  function ApprovalCheck(s: Server, lookup: DmsLookup, now: int): (r: Server)
    ensures s.approvalJobs == 0 || lookup.NotApproved? ==> r == s
    ensures s.approvalJobs > 0 && lookup.LookupFailed? ==> r.(sent := s.sent) == s
    ensures s.approvalJobs > 0 && lookup.Approved? ==>
              r.dms.status == Idle && r.dms.authorizedCAs == Some(lookup.cas) &&
              r.dms.certificate == Some(lookup.certificate) &&
              r.enrollment == s.enrollment && r.route == s.route && r.identities == s.identities
    ensures s.approvalJobs > 0 && lookup.Approved? ==>
              (r.dms.selectedCA != s.dms.selectedCA <==> s.dms.selectedCA == "" && |lookup.cas| > 0 && lookup.cas[0] != "")
    ensures s.approvalJobs > 0 && lookup.Approved? && s.dms.selectedCA == "" && |lookup.cas| > 0 ==>
              r.dms.selectedCA == lookup.cas[0]
  {
    if s.approvalJobs == 0 then s
    else
      match lookup
      case LookupFailed(err) => Send(s, ErrorMessage("Error checking DMS status: " + err, now))
      case NotApproved => s
      case Approved(cas, crt) =>
        var selected := if |cas| > 0 && s.dms.selectedCA == "" then cas[0] else s.dms.selectedCA;
        var d := s.dms.(authorizedCAs := Some(cas), selectedCA := selected, status := Idle, certificate := Some(crt));
        Send(s.(dms := d), DmsUpdateMessage(d, now))
  }

  // ---------------------------------------------------------------------
  // enrollRoute

  /** The request body: whether it was read and parsed without error, and the
      fields `json.Unmarshal` filled in (the ones it reached before an error). */
  datatype EnrollBody = EnrollBody(ok: bool, fields: EnrollFields)

  /** The fields of the device's request body. */
  datatype EnrollFields = EnrollFields(serialNumber: string, model: string, slot: string)

  /** What the bytes base64 decoding returns hold: no PEM block, a block
      that is no CSR, or a CSR with its subject. */
  datatype CsrBytes = NoPemBlock | NotCsr | CsrParsed(subject: Subject)

  /** How the CSR in the request decodes. Go's decoder returns the bytes it
      decoded before an error, so `decoded` says what those bytes give even
      when `base64Ok` is false. */
  datatype CsrOutcome = Csr(base64Ok: bool, decoded: CsrBytes)

  /** The record a new request starts from: nothing authorized beyond what the
      DMS authorizes automatically, issued by the selected CA. */
  function NewProcess(d: DmsState): (p: EnrollmentInProcess)
    ensures p.authorizedEnrollment == d.automaticEnrollment
    ensures p.authorizedCertificateTransfer == d.automaticCertificateTransfer
    ensures p.issuingCA == d.selectedCA && p.status == Unset
    ensures p.csrSubject.None? && p.certificate.None?
  {
    EnrollmentInProcess(Unset, ZeroTime, "", d.selectedCA, "", "", None, d.automaticEnrollment,
                        None, "", ZeroTime, d.automaticCertificateTransfer)
  }

  /** `sendWebSocketMessage` of the process as it stands: `Serialize` either
      panics, and nothing is written, or its record is sent. */
  function PushProcess(s: Server, now: int): (h: Handled)
    requires s.enrollment.Some?
    ensures h.panicked <==> SerializeEnrollmentAsWritten(s.enrollment.value).Err?
    ensures h.panicked ==> h.next == s
    ensures !h.panicked ==> h.next == Send(s, ProcessUpdateMessage(s.enrollment.value, now))
  {
    if SerializeEnrollmentAsWritten(s.enrollment.value).Err? then Handled(s, true)
    else Handled(Send(s, ProcessUpdateMessage(s.enrollment.value, now)), false)
  }

  /** The `/enroll` POST handler up to its first wait. The DMS turns
      `ENROLLING`; a body that cannot be read or parsed, a CSR that is not
      valid base64, or bytes that are no CSR set it back to `IDLE`, and the
      handler goes on each time. Bytes with no PEM block leave a nil block
      whose bytes are read: a panic. Otherwise the process reaches `STEP_1`
      (with no CSR if none parsed) and is pushed, where `Serialize` panics on
      a subject with a country and no OU; when it does not, the handler waits
      for the enrollment to be authorized. */
  function EnrollRequest(s: Server, body: EnrollBody, csr: CsrOutcome, now: int): (h: Handled)
    ensures h.panicked <==> csr.decoded.NoPemBlock? ||
                            (csr.decoded.CsrParsed? && SubjectTextAsWritten(csr.decoded.subject).Err?)
    ensures h.next.connected == s.connected && h.next.reading == s.reading
    ensures h.next.identities == s.identities && h.next.approvalJobs == s.approvalJobs
    ensures h.next.dms == s.dms.(status := if !body.ok || !csr.base64Ok || csr.decoded.NotCsr? then Idle else Enrolling)
    ensures h.next.enrollment.Some?
    ensures var p := h.next.enrollment.value;
            && p.issuingCA == s.dms.selectedCA && p.requestingDate == now
            && p.deviceId == body.fields.serialNumber && p.deviceModel == body.fields.model
            && p.deviceSlot == body.fields.slot && p.certificate.None?
            && p.authorizedEnrollment == s.dms.automaticEnrollment
            && p.authorizedCertificateTransfer == s.dms.automaticCertificateTransfer
            && (csr.decoded.NoPemBlock? ==> p.status == Unset && p.csrSubject.None?)
            && (!csr.decoded.NoPemBlock? ==>
                  p.status == Step1 && p.csrSubject == (if csr.decoded.CsrParsed? then Some(csr.decoded.subject) else None))
    ensures h.panicked ==> h.next.route == NoRoute && h.next.sent == s.sent
    ensures !h.panicked ==>
              h.next.route == AwaitingEnrollAuth && SerializeEnrollmentAsWritten(h.next.enrollment.value).Ok? &&
              h.next.sent == (if s.connected then s.sent + [ProcessUpdateMessage(h.next.enrollment.value, now)] else s.sent)
  {
    var s1 := RequestStart(s, body, csr, now);
    if csr.decoded.NoPemBlock? then Handled(s1, true)
    else ReachStep1(s1, if csr.decoded.CsrParsed? then Some(csr.decoded.subject) else None, now)
  }

  /** The request up to the PEM decoding: the new process, with the body's
      fields, and the DMS status the errors so far leave. */
  function RequestStart(s: Server, body: EnrollBody, csr: CsrOutcome, now: int): (r: Server)
    ensures r.(dms := s.dms, enrollment := s.enrollment, route := s.route) == s
    ensures r.dms == s.dms.(status := if !body.ok || !csr.base64Ok || csr.decoded.NotCsr? then Idle else Enrolling)
    ensures r.route == NoRoute && r.enrollment.Some?
    ensures var p := r.enrollment.value;
            && p == NewProcess(s.dms).(deviceId := body.fields.serialNumber, deviceModel := body.fields.model,
                                       deviceSlot := body.fields.slot, requestingDate := now)
  {
    var f := body.fields;
    var p := NewProcess(s.dms).(deviceId := f.serialNumber, deviceModel := f.model, deviceSlot := f.slot,
                                requestingDate := now);
    var st := if !body.ok || !csr.base64Ok || csr.decoded.NotCsr? then Idle else Enrolling;
    s.(dms := s.dms.(status := st), enrollment := Some(p), route := NoRoute)
  }

  /** The request from `STEP_1` on: the process takes the CSR (if one parsed)
      and is pushed, unless `Serialize` panics on its subject; then the
      handler waits for the enrollment to be authorized. */
  function ReachStep1(s: Server, subject: Option<Subject>, now: int): (h: Handled)
    requires s.enrollment.Some? && s.enrollment.value.certificate.None? && s.route == NoRoute
    ensures h.panicked <==> subject.Some? && SubjectTextAsWritten(subject.value).Err?
    ensures h.next.(sent := s.sent, route := NoRoute) == s.(enrollment := Some(s.enrollment.value.(csrSubject := subject, status := Step1)))
    ensures h.panicked ==> h.next.route == NoRoute && h.next.sent == s.sent
    ensures !h.panicked ==>
              h.next.route == AwaitingEnrollAuth && SerializeEnrollmentAsWritten(h.next.enrollment.value).Ok? &&
              h.next.sent == (if s.connected then s.sent + [ProcessUpdateMessage(h.next.enrollment.value, now)] else s.sent)
  {
    var h1 := PushProcess(s.(enrollment := Some(s.enrollment.value.(csrSubject := subject, status := Step1))), now);
    if h1.panicked then h1 else Handled(h1.next.(route := AwaitingEnrollAuth), false)
  }

  /** How the EST step turns out: no client, a refused enrollment, or the
      issued certificate with its serial number as displayed. */
  datatype EstOutcome = EstClientFailed | EstEnrollFailed | EstEnrolled(certificate: Certificate, serialText: string)

  predicate AwaitsEnrollAuth(s: Server)
  {
    s.route == AwaitingEnrollAuth && s.enrollment.Some? && s.enrollment.value.authorizedEnrollment
  }

  /** The handler once its wait for the enrollment authorization ends (while
      the flag is false it keeps waiting, and this changes nothing). A client
      that cannot be built sets `IDLE` and then panics on the nil client; a
      refused enrollment sets `IDLE` and ends the handler; an issued
      certificate takes the process through `STEP_2` and `STEP_3`, each pushed
      unless `Serialize` panics on it, and the handler waits for the transfer
      to be authorized. */
  function AfterEnrollAuth(s: Server, est: EstOutcome, now: int): (h: Handled)
    ensures !AwaitsEnrollAuth(s) ==> h == Handled(s, false)
    ensures h.next.identities == s.identities && h.next.approvalJobs == s.approvalJobs
    ensures h.next.connected == s.connected && h.next.reading == s.reading
    ensures AwaitsEnrollAuth(s) ==>
              var p := s.enrollment.value;
              && (h.panicked <==> est.EstClientFailed? ||
                                  (est.EstEnrolled? && (SerializeEnrollmentAsWritten(p).Err? ||
                                                        SubjectTextAsWritten(est.certificate.subject).Err?)))
              && (h.next.route != NoRoute <==> est.EstEnrolled? && !h.panicked)
              && (!est.EstEnrolled? ==> h.next == s.(dms := s.dms.(status := Idle), route := NoRoute))
              && (est.EstEnrolled? && SerializeEnrollmentAsWritten(p).Err? ==>
                    h.next == s.(enrollment := Some(p.(status := Step2)), route := NoRoute))
              && (est.EstEnrolled? && SerializeEnrollmentAsWritten(p).Ok? ==>
                    var p3 := p.(certificate := Some(est.certificate), serialNumber := est.serialText,
                                 expirationDate := est.certificate.notAfter, status := Step3);
                    && h.next.dms == s.dms && h.next.enrollment == Some(p3)
                    && SerializeEnrollmentAsWritten(p.(status := Step2)).Ok?
                    && (h.panicked || SerializeEnrollmentAsWritten(p3).Ok?)
                    && h.next.sent == (if !s.connected then s.sent
                                       else if h.panicked then s.sent + [ProcessUpdateMessage(p.(status := Step2), now)]
                                       else s.sent + [ProcessUpdateMessage(p.(status := Step2), now), ProcessUpdateMessage(p3, now)]))
  {
    if !AwaitsEnrollAuth(s) then Handled(s, false)
    else
      var p := s.enrollment.value;
      match est
      case EstClientFailed => Handled(s.(dms := s.dms.(status := Idle), route := NoRoute), true)
      case EstEnrollFailed => Handled(s.(dms := s.dms.(status := Idle), route := NoRoute), false)
      case EstEnrolled(crt, serialText) => Issued(s.(route := NoRoute), crt, serialText, now)
  }

  /** The handler once the certificate is issued: `STEP_2` is pushed, then the
      certificate, its serial number and its expiration are recorded and
      `STEP_3` is pushed; a panic in either push ends the handler there. */
  function Issued(s: Server, crt: Certificate, serialText: string, now: int): (h: Handled)
    requires s.enrollment.Some? && s.route == NoRoute
    ensures var p := s.enrollment.value;
            var p3 := p.(certificate := Some(crt), serialNumber := serialText, expirationDate := crt.notAfter, status := Step3);
            && (h.panicked <==> SerializeEnrollmentAsWritten(p).Err? || SubjectTextAsWritten(crt.subject).Err?)
            && (h.next.route != NoRoute <==> !h.panicked)
            && (SerializeEnrollmentAsWritten(p).Err? ==> h.next == s.(enrollment := Some(p.(status := Step2))))
            && (SerializeEnrollmentAsWritten(p).Ok? ==>
                  && h.next.(sent := s.sent, route := NoRoute) == s.(enrollment := Some(p3))
                  && SerializeEnrollmentAsWritten(p.(status := Step2)).Ok?
                  && (h.panicked || SerializeEnrollmentAsWritten(p3).Ok?)
                  && h.next.sent == (if !s.connected then s.sent
                                     else if h.panicked then s.sent + [ProcessUpdateMessage(p.(status := Step2), now)]
                                     else s.sent + [ProcessUpdateMessage(p.(status := Step2), now), ProcessUpdateMessage(p3, now)]))
  {
    var p := s.enrollment.value;
    var h2 := PushProcess(s.(enrollment := Some(p.(status := Step2))), now);
    if h2.panicked then h2
    else
      var p3 := p.(certificate := Some(crt), serialNumber := serialText, expirationDate := crt.notAfter, status := Step3);
      var h3 := PushProcess(h2.next.(enrollment := Some(p3)), now);
      if h3.panicked then h3 else Handled(h3.next.(route := AwaitingTransferAuth), false)
  }

  /** The identity an enrollment adds: enrolled at the request's date, valid for
      the certificate's lifetime. */
  function NewIdentity(p: EnrollmentInProcess): (i: EnrolledIdentity)
    requires p.certificate.Some?
    ensures i.enrolledTimestamp == p.requestingDate && i.deviceId == p.deviceId && i.issuingCA == p.issuingCA
    ensures i.issuingDuration == p.certificate.value.notAfter - p.certificate.value.notBefore
  {
    EnrolledIdentity(p.requestingDate, p.serialNumber, p.deviceId, p.deviceSlot, p.issuingCA,
                     p.certificate.value.notAfter - p.certificate.value.notBefore)
  }

  predicate AwaitsTransferAuth(s: Server)
  {
    s.route == AwaitingTransferAuth && s.enrollment.Some? && s.enrollment.value.certificate.Some? &&
    s.enrollment.value.authorizedCertificateTransfer
  }

  /** The handler once its wait for the transfer authorization ends: `STEP_4`
      is pushed (or `Serialize` panics there), the identity is appended and
      the whole list pushed, and the handler ends. The DMS status is left as
      it was (`ENROLLING`). */
  function AfterTransferAuth(s: Server, now: int): (h: Handled)
    ensures !AwaitsTransferAuth(s) ==> h == Handled(s, false)
    ensures h.next.dms == s.dms && h.next.approvalJobs == s.approvalJobs
    ensures h.next.connected == s.connected && h.next.reading == s.reading
    ensures AwaitsTransferAuth(s) ==>
              var p4 := s.enrollment.value.(status := Step4);
              && h.next.route == NoRoute && h.next.enrollment == Some(p4)
              && (h.panicked <==> SerializeEnrollmentAsWritten(p4).Err?)
              && (h.panicked ==> h.next.identities == s.identities && h.next.sent == s.sent)
              && (!h.panicked ==>
                    h.next.identities == s.identities + [NewIdentity(s.enrollment.value)] &&
                    h.next.sent == (if s.connected then s.sent + [ProcessUpdateMessage(p4, now), IdentitiesMessage(h.next.identities, now)]
                                    else s.sent))
  {
    if !AwaitsTransferAuth(s) then Handled(s, false)
    else
      var p4 := s.enrollment.value.(status := Step4);
      var h4 := PushProcess(s.(enrollment := Some(p4), route := NoRoute), now);
      if h4.panicked then h4
      else
        var ids := s.identities + [NewIdentity(p4)];
        Handled(Send(h4.next.(identities := ids), IdentitiesMessage(ids, now)), false)
  }

  // ---------------------------------------------------------------------
  // Runs

  /** Everything that can happen to the server: a console message, a run of an
      approval job, the three stages of an `/enroll` request, and the console
      connecting (`mainRoute` upgrading) or going away (a read error). */
  datatype Event =
    | Message(m: Envelope<DmsBody>, outcome: RegistrationOutcome, now: int)
    | ApprovalTick(lookup: DmsLookup, now: int)
    | Enroll(body: EnrollBody, csr: CsrOutcome, now: int)
    | EnrollAuthorized(est: EstOutcome, now: int)
    | TransferAuthorized(now: int)
    | Connect
    | Disconnect

  /** One turn of `mainRoute`'s loop: a message is handled only while the loop
      runs, and a handler that panicked ends the loop, keeping the state it
      left and the stored connection. A read error (only a running loop sees
      one) clears the connection; an upgrade stores a new one and reads it. */
  function ReadTurn(s: Server, m: Envelope<DmsBody>, outcome: RegistrationOutcome, now: int): (r: Server)
    ensures !s.reading ==> r == s
    ensures s.reading ==> r.(reading := true) == HandleMessage(s, m, outcome, now).next
    ensures s.reading ==> (r.reading <==> !HandleMessage(s, m, outcome, now).panicked)
  {
    if !s.reading then s
    else
      var h := HandleMessage(s, m, outcome, now);
      if h.panicked then h.next.(reading := false) else h.next
  }

  /** A handler that panicked stops where it was: its state stays, and an
      `/enroll` handler that panicked no longer waits. */
  function Step(s: Server, e: Event): Server
  {
    match e
    case Message(m, outcome, now) => ReadTurn(s, m, outcome, now)
    case ApprovalTick(lookup, now) => ApprovalCheck(s, lookup, now)
    case Enroll(body, csr, now) => EnrollRequest(s, body, csr, now).next
    case EnrollAuthorized(est, now) => AfterEnrollAuth(s, est, now).next
    case TransferAuthorized(now) => AfterTransferAuth(s, now).next
    case Connect => s.(connected := true, reading := true)
    case Disconnect => if s.reading then s.(connected := false, reading := false) else s
  }

  function Run(s: Server, evs: seq<Event>): Server
    decreases |evs|
  {
    if evs == [] then s else Run(Step(s, evs[0]), evs[1..])
  }

  lemma StepValid(s: Server, e: Event)
    requires Valid(s)
    ensures Valid(Step(s, e))
  {
    match e
    case Message(m, outcome, now) => MessageValid(s, m, outcome, now);
    case ApprovalTick(lookup, now) => assert Step(s, e) == ApprovalCheck(s, lookup, now);
    case Enroll(body, csr, now) => assert Step(s, e) == EnrollRequest(s, body, csr, now).next;
    case EnrollAuthorized(est, now) => assert Step(s, e) == AfterEnrollAuth(s, est, now).next;
    case TransferAuthorized(now) => assert Step(s, e) == AfterTransferAuth(s, now).next;
    case _ =>
  }

  lemma MessageValid(s: Server, m: Envelope<DmsBody>, outcome: RegistrationOutcome, now: int)
    requires Valid(s)
    ensures Valid(ReadTurn(s, m, outcome, now))
  {
    if m.msgType == Cfg {
      assert HandleMessage(s, m, outcome, now) == Register(s, m.message, outcome, now);
    } else if m.msgType == AuthEnroll || m.msgType == AuthTransfer {
      AuthorizationsSetFlag(s, m, outcome, now);
    }
  }

  /** Every reachable state is valid. */
  lemma {:induction false} RunValid(s: Server, evs: seq<Event>)
    requires Valid(s)
    ensures Valid(Run(s, evs))
    decreases |evs|
  {
    if evs != [] {
      StepValid(s, evs[0]);
      RunValid(Step(s, evs[0]), evs[1..]);
    }
  }

  /** Identities are only ever appended, one per finished enrollment. */
  lemma {:induction false} IdentitiesOnlyGrow(s: Server, evs: seq<Event>)
    ensures |Run(s, evs).identities| >= |s.identities|
    ensures Run(s, evs).identities[..|s.identities|] == s.identities
    decreases |evs|
  {
    if evs != [] {
      var s1 := Step(s, evs[0]);
      assert s1.identities == s.identities || s1.identities == s.identities + [s1.identities[|s1.identities| - 1]] by {
        if evs[0].TransferAuthorized? {
        }
      }
      IdentitiesOnlyGrow(s1, evs[1..]);
      assert s1.identities[..|s.identities|] == s.identities;
    }
  }

  /** The events of a run other than console messages. */
  function WithoutMessages(evs: seq<Event>): (r: seq<Event>)
    ensures |r| <= |evs|
    ensures forall k :: 0 <= k < |r| ==> !r[k].Message?
    decreases |evs|
  {
    if evs == [] then []
    else if evs[0].Message? then WithoutMessages(evs[1..])
    else [evs[0]] + WithoutMessages(evs[1..])
  }

  /** A handler panic ends the read loop for good: until a console connects
      again, the loop stays ended and every console message is lost, so the
      run is the run without them, pushes still being written. */
  lemma {:induction false} EndedLoopIgnoresMessages(s: Server, evs: seq<Event>)
    requires !s.reading
    requires forall k :: 0 <= k < |evs| ==> !evs[k].Connect?
    ensures !Run(s, evs).reading
    ensures Run(s, evs) == Run(s, WithoutMessages(evs))
    decreases |evs|
  {
    if evs != [] {
      var s1 := Step(s, evs[0]);
      assert !s1.reading by {
        match evs[0]
        case Enroll(body, csr, now) => assert s1 == EnrollRequest(s, body, csr, now).next;
        case EnrollAuthorized(est, now) => assert s1 == AfterEnrollAuth(s, est, now).next;
        case TransferAuthorized(now) => assert s1 == AfterTransferAuth(s, now).next;
        case _ =>
      }
      EndedLoopIgnoresMessages(s1, evs[1..]);
      if evs[0].Message? {
        assert WithoutMessages(evs) == WithoutMessages(evs[1..]);
      } else {
        assert WithoutMessages(evs) == [evs[0]] + WithoutMessages(evs[1..]);
        assert WithoutMessages(evs)[1..] == WithoutMessages(evs[1..]);
      }
    }
  }

  /** The registration whose key is not PEM panics, and it is the one message
      that does: afterwards the console can still be written to, but what it
      sends is no longer read. */
  lemma KeyNotPemEndsReading(s: Server, m: Envelope<DmsBody>, now: int, later: Envelope<DmsBody>, o: RegistrationOutcome, t: int)
    requires s.reading && m.msgType == Cfg
    ensures var s1 := Step(s, Message(m, KeyNotPem, now));
            && !s1.reading && s1.connected == s.connected && s1.dms == s.dms
            && Step(s1, Message(later, o, t)) == s1
  {
    assert HandleMessage(s, m, KeyNotPem, now) == Register(s, m.message, KeyNotPem, now);
  }

  /** Bad base64 does not stop the handler: `DecodeString` still returns the
      bytes before the bad character, and when those hold a CSR the process
      reaches `STEP_1` with its subject, is pushed and waits, while the DMS
      shows `IDLE`. */
  lemma BadBase64PrefixStillEnrolls(s: Server, body: EnrollBody, subject: Subject, now: int)
    requires SubjectTextAsWritten(subject).Ok?
    ensures var h := EnrollRequest(s, body, Csr(false, CsrParsed(subject)), now);
            && !h.panicked && h.next.dms.status == Idle && h.next.route == AwaitingEnrollAuth
            && h.next.enrollment.Some? && h.next.enrollment.value.status == Step1
            && h.next.enrollment.value.csrSubject == Some(subject)
            && (s.connected ==> h.next.sent == s.sent + [ProcessUpdateMessage(h.next.enrollment.value, now)])
  {
  }

  /** The first half of an enrollment authorized by hand: from the request to
      the certificate, the process is pushed at `STEP_1`, `STEP_2` and `STEP_3`
      and then waits for the transfer authorization. Neither subject may have
      a country without an OU, or `Serialize` panics on the way; when the
      CSR's subject has both or neither, the request line pushed is the
      intended one. */
  lemma EnrollmentReachesStep3(s: Server, f: EnrollFields, subject: Subject, crt: Certificate, serialText: string,
                               m1: Envelope<DmsBody>, t: int)
    requires s.connected && s.reading && m1.msgType == AuthEnroll
    requires SubjectTextAsWritten(subject).Ok? && SubjectTextAsWritten(crt.subject).Ok?
    ensures var s1 := Step(s, Enroll(EnrollBody(true, f), Csr(true, CsrParsed(subject)), t));
            var s2 := Step(s1, Message(m1, KeyNotPem, t));
            var s3 := Step(s2, EnrollAuthorized(EstEnrolled(crt, serialText), t));
            && s3.connected && s3.reading && |s3.sent| == |s.sent| + 3 && s3.sent[..|s.sent|] == s.sent
            && (forall k :: |s.sent| <= k < |s.sent| + 3 ==>
                  s3.sent[k].msgType == EnrollingProcessUpdate && s3.sent[k].message.EnrollingBody? &&
                  s3.sent[k].message.process.status == EnrollmentStatusName([Step1, Step2, Step3][k - |s.sent|]))
            && ((|subject.country| > 0 <==> |subject.organizationalUnit| > 0) ==>
                  s3.sent[|s.sent|].message.process.certificateRequest == SubjectText(subject))
            && s3.route == AwaitingTransferAuth && s3.identities == s.identities && s3.dms.status == Enrolling
            && s3.dms.selectedCA == s.dms.selectedCA && s3.enrollment.Some?
            && s3.enrollment.value.certificate == Some(crt) && s3.enrollment.value.serialNumber == serialText
            && s3.enrollment.value.deviceId == f.serialNumber && s3.enrollment.value.deviceSlot == f.slot
            && s3.enrollment.value.issuingCA == s.dms.selectedCA && s3.enrollment.value.requestingDate == t
            && SerializeEnrollmentAsWritten(s3.enrollment.value).Ok?
  {
    var s1 := Step(s, Enroll(EnrollBody(true, f), Csr(true, CsrParsed(subject)), t));
    RequestReachesStep1(s, f, subject, t);
    AuthorizationsSetFlag(s1, m1, KeyNotPem, t);
    var s2 := Step(s1, Message(m1, KeyNotPem, t));
    assert s2 == s1.(enrollment := Some(s1.enrollment.value.(authorizedEnrollment := true)));
    CertificateReachesStep3(s2, crt, serialText, t);
    var s3 := Step(s2, EnrollAuthorized(EstEnrolled(crt, serialText), t));
    assert s3.sent[..|s1.sent|] == s1.sent;
    assert s3.sent[..|s.sent|] == s.sent by {
      assert s3.sent[..|s.sent|] == s3.sent[..|s1.sent|][..|s.sent|];
    }
    assert s3.sent[|s.sent|] == s1.sent[|s.sent|] by {
      assert s3.sent[|s.sent|] == s3.sent[..|s1.sent|][|s.sent|];
    }
    forall k | |s.sent| <= k < |s.sent| + 3
      ensures s3.sent[k].msgType == EnrollingProcessUpdate && s3.sent[k].message.EnrollingBody? &&
              s3.sent[k].message.process.status == EnrollmentStatusName([Step1, Step2, Step3][k - |s.sent|])
    {
      assert k - |s.sent| == 0 || k == |s2.sent| || k == |s2.sent| + 1;
    }
  }

  /** The `STEP_1` push of a well-formed request. */
  lemma RequestReachesStep1(s: Server, f: EnrollFields, subject: Subject, t: int)
    requires s.connected && SubjectTextAsWritten(subject).Ok?
    ensures var s1 := Step(s, Enroll(EnrollBody(true, f), Csr(true, CsrParsed(subject)), t));
            && s1.route == AwaitingEnrollAuth && s1.enrollment.Some? && s1.enrollment.value.status == Step1
            && SerializeEnrollmentAsWritten(s1.enrollment.value).Ok?
            && s1.sent == s.sent + [ProcessUpdateMessage(s1.enrollment.value, t)]
            && s1.sent[|s.sent|].message.process.status == "STEP_1"
            && ((|subject.country| > 0 <==> |subject.organizationalUnit| > 0) ==>
                  s1.sent[|s.sent|].message.process.certificateRequest == SubjectText(subject))
            && s1.enrollment.value.certificate.None? && s1.enrollment.value.csrSubject == Some(subject)
            && s1.dms == s.dms.(status := Enrolling) && s1.identities == s.identities
            && s1.connected == s.connected && s1.reading == s.reading
            && s1.enrollment.value.deviceId == f.serialNumber && s1.enrollment.value.deviceSlot == f.slot
            && s1.enrollment.value.issuingCA == s.dms.selectedCA && s1.enrollment.value.requestingDate == t
  {
    var s1 := Step(s, Enroll(EnrollBody(true, f), Csr(true, CsrParsed(subject)), t));
    assert s1 == EnrollRequest(s, EnrollBody(true, f), Csr(true, CsrParsed(subject)), t).next;
    if |subject.country| > 0 <==> |subject.organizationalUnit| > 0 {
      SerializeEnrollmentAgreement(s1.enrollment.value);
    }
  }

  /** The `STEP_2` and `STEP_3` pushes once the certificate is issued. */
  lemma CertificateReachesStep3(s2: Server, crt: Certificate, serialText: string, t: int)
    requires s2.connected && AwaitsEnrollAuth(s2) && s2.enrollment.value.certificate.None?
    requires SerializeEnrollmentAsWritten(s2.enrollment.value).Ok? && SubjectTextAsWritten(crt.subject).Ok?
    ensures var s3 := Step(s2, EnrollAuthorized(EstEnrolled(crt, serialText), t));
            && |s3.sent| == |s2.sent| + 2 && s3.sent[..|s2.sent|] == s2.sent
            && s3.sent[|s2.sent|].msgType == EnrollingProcessUpdate && s3.sent[|s2.sent|].message.EnrollingBody?
            && s3.sent[|s2.sent|].message.process.status == "STEP_2"
            && s3.sent[|s2.sent| + 1].msgType == EnrollingProcessUpdate && s3.sent[|s2.sent| + 1].message.EnrollingBody?
            && s3.sent[|s2.sent| + 1].message.process.status == "STEP_3"
            && s3.route == AwaitingTransferAuth && s3.dms == s2.dms && s3.identities == s2.identities
            && s3.connected && s3.reading == s2.reading
            && s3.enrollment == Some(s2.enrollment.value.(certificate := Some(crt), serialNumber := serialText,
                                                          expirationDate := crt.notAfter, status := Step3))
            && SerializeEnrollmentAsWritten(s3.enrollment.value).Ok?
  {
    var s3 := Step(s2, EnrollAuthorized(EstEnrolled(crt, serialText), t));
    assert s3 == AfterEnrollAuth(s2, EstEnrolled(crt, serialText), t).next;
  }

  /** A connected console following one enrollment from request to transfer
      (authorizing both steps by hand) sees the process pushed at `STEP_1`,
      `STEP_2`, `STEP_3` and `STEP_4`, then the identity list with the new
      identity last; the DMS stays `ENROLLING` afterwards. */
  lemma FullEnrollment(s: Server, f: EnrollFields, subject: Subject, crt: Certificate, serialText: string,
                       m1: Envelope<DmsBody>, m2: Envelope<DmsBody>, t: int)
    requires s.connected && s.reading && m1.msgType == AuthEnroll && m2.msgType == AuthTransfer
    requires SubjectTextAsWritten(subject).Ok? && SubjectTextAsWritten(crt.subject).Ok?
    ensures var s1 := Step(s, Enroll(EnrollBody(true, f), Csr(true, CsrParsed(subject)), t));
            var s2 := Step(s1, Message(m1, KeyNotPem, t));
            var s3 := Step(s2, EnrollAuthorized(EstEnrolled(crt, serialText), t));
            var s4 := Step(s3, Message(m2, KeyNotPem, t));
            var s5 := Step(s4, TransferAuthorized(t));
            |s5.sent| == |s.sent| + 5 &&
            (forall k :: |s.sent| <= k < |s.sent| + 4 ==>
               s5.sent[k].msgType == EnrollingProcessUpdate && s5.sent[k].message.EnrollingBody? &&
               s5.sent[k].message.process.status == EnrollmentStatusName([Step1, Step2, Step3, Step4][k - |s.sent|])) &&
            s5.sent[|s.sent| + 4].msgType == EnrolledIdentitiesUpdate &&
            s5.identities == s.identities + [EnrolledIdentity(t, serialText, f.serialNumber, f.slot, s.dms.selectedCA,
                                                              crt.notAfter - crt.notBefore)] &&
            s5.dms.status == Enrolling && s5.route == NoRoute
  {
    EnrollmentReachesStep3(s, f, subject, crt, serialText, m1, t);
    var s1 := Step(s, Enroll(EnrollBody(true, f), Csr(true, CsrParsed(subject)), t));
    var s2 := Step(s1, Message(m1, KeyNotPem, t));
    var s3 := Step(s2, EnrollAuthorized(EstEnrolled(crt, serialText), t));
    TransferCompletes(s3, m2, t);
    var s5 := Step(Step(s3, Message(m2, KeyNotPem, t)), TransferAuthorized(t));
    assert s5.sent[..|s3.sent|] == s3.sent;
    forall k | |s.sent| <= k < |s.sent| + 4
      ensures s5.sent[k].msgType == EnrollingProcessUpdate && s5.sent[k].message.EnrollingBody? &&
              s5.sent[k].message.process.status == EnrollmentStatusName([Step1, Step2, Step3, Step4][k - |s.sent|])
    {
      if k < |s.sent| + 3 {
        assert s5.sent[k] == s5.sent[..|s3.sent|][k] == s3.sent[k];
        assert [Step1, Step2, Step3, Step4][k - |s.sent|] == [Step1, Step2, Step3][k - |s.sent|];
      }
    }
    assert NewIdentity(s3.enrollment.value)
           == EnrolledIdentity(t, serialText, f.serialNumber, f.slot, s.dms.selectedCA, crt.notAfter - crt.notBefore);
  }

  /** The second half: once the transfer is authorized by hand the process is
      pushed at `STEP_4`, then the identity list with the new identity last. */
  lemma TransferCompletes(s3: Server, m2: Envelope<DmsBody>, t: int)
    requires s3.connected && s3.reading && m2.msgType == AuthTransfer
    requires s3.route == AwaitingTransferAuth && s3.enrollment.Some? && s3.enrollment.value.certificate.Some?
    requires SerializeEnrollmentAsWritten(s3.enrollment.value).Ok?
    ensures var s5 := Step(Step(s3, Message(m2, KeyNotPem, t)), TransferAuthorized(t));
            var p4 := s3.enrollment.value.(authorizedCertificateTransfer := true, status := Step4);
            && SerializeEnrollmentAsWritten(p4).Ok?
            && s5.identities == s3.identities + [NewIdentity(s3.enrollment.value)]
            && s5.sent == s3.sent + [ProcessUpdateMessage(p4, t), IdentitiesMessage(s5.identities, t)]
            && s5.dms == s3.dms && s5.route == NoRoute
  {
    AuthorizationsSetFlag(s3, m2, KeyNotPem, t);
    var s4 := s3.(enrollment := Some(s3.enrollment.value.(authorizedCertificateTransfer := true)));
    assert Step(s3, Message(m2, KeyNotPem, t)) == s4;
    assert Step(s4, TransferAuthorized(t)) == AfterTransferAuth(s4, t).next;
    assert NewIdentity(s4.enrollment.value) == NewIdentity(s3.enrollment.value);
  }

  /** The subject `C=ES`, `CN=dev` (a country, no OU) makes `Serialize` panic
      at the `STEP_1` push: the process stays at `STEP_1` with the DMS
      `ENROLLING`, nothing is pushed, and since no handler waits any more,
      authorizing the enrollment changes nothing but the flag. */
  lemma EnrollStuckAtStep1(s: Server, f: EnrollFields, m1: Envelope<DmsBody>, est: EstOutcome, t: int)
    requires s.reading && m1.msgType == AuthEnroll
    ensures var sub := Subject(["ES"], [], [], [], [], "dev");
            var s1 := Step(s, Enroll(EnrollBody(true, f), Csr(true, CsrParsed(sub)), t));
            var s2 := Step(s1, Message(m1, KeyNotPem, t));
            && s1.enrollment.Some? && s1.enrollment.value.status == Step1 && s1.enrollment.value.csrSubject == Some(sub)
            && s1.dms.status == Enrolling && s1.route == NoRoute && s1.sent == s.sent
            && s2 == s1.(enrollment := Some(s1.enrollment.value.(authorizedEnrollment := true)))
            && Step(s2, EnrollAuthorized(est, t)) == s2
  {
    var sub := Subject(["ES"], [], [], [], [], "dev");
    OuGuardPanics();
    var s1 := Step(s, Enroll(EnrollBody(true, f), Csr(true, CsrParsed(sub)), t));
    assert s1 == EnrollRequest(s, EnrollBody(true, f), Csr(true, CsrParsed(sub)), t).next;
    AuthorizationsSetFlag(s1, m1, KeyNotPem, t);
  }

  /** An approval answer during an enrollment shows the DMS as `IDLE` while the
      process goes on. */
  lemma ApprovalInterruptsEnrolling(s: Server, cas: seq<string>, crt: Certificate, now: int)
    requires s.approvalJobs > 0 && s.dms.status == Enrolling && s.route == AwaitingTransferAuth
    ensures var r := ApprovalCheck(s, Approved(cas, crt), now);
            r.dms.status == Idle && r.route == AwaitingTransferAuth && r.enrollment == s.enrollment
  {
  }

  // ---------------------------------------------------------------------
  // The singleton

  class Singleton {
    var connected: bool
    var reading: bool
    var dms: DmsState
    var enrollment: Option<EnrollmentInProcess>
    var identities: seq<EnrolledIdentity>
    var approvalJobs: nat
    var sent: seq<Envelope<DmsBody>>
    var route: RoutePhase

    function Model(): Server
      reads this
    {
      Server(connected, reading, dms, enrollment, identities, approvalJobs, sent, route)
    }

    /** `main`: an `EMPTY` DMS, no identities, no console. */
    constructor ()
      ensures Model() == InitialServer()
    {
      connected := false;
      reading := false;
      dms := InitialDms();
      enrollment := None;
      identities := [];
      approvalJobs := 0;
      sent := [];
      route := NoRoute;
    }

    method SendWebSocketMessage(m: Envelope<DmsBody>)
      modifies this
      ensures Model() == Send(old(Model()), m)
    {
      if connected {
        sent := sent + [m];
      }
    }

    /** `mainRoute` after a successful upgrade: the connection is stored and
        its loop starts reading. */
    method Connect()
      modifies this
      ensures Model() == Step(old(Model()), Event.Connect)
    {
      connected := true;
      reading := true;
    }

    /** A read error: the loop clears the connection and ends. */
    method Disconnect()
      modifies this
      ensures Model() == Step(old(Model()), Event.Disconnect)
    {
      if reading {
        connected := false;
        reading := false;
      }
    }

    /** One turn of `mainRoute`'s loop: the message is handled if the loop
        still runs, and a panic in the handler ends it. */
    method ReadMessage(m: Envelope<DmsBody>, outcome: RegistrationOutcome, now: int)
      modifies this
      ensures Model() == Step(old(Model()), Message(m, outcome, now))
    {
      if !reading {
        return;
      }
      var panicked := MessageHandler(m, outcome, now);
      if panicked {
        reading := false;
      }
    }

    method MessageHandler(m: Envelope<DmsBody>, outcome: RegistrationOutcome, now: int) returns (panicked: bool)
      modifies this
      ensures Model() == HandleMessage(old(Model()), m, outcome, now).next
      ensures panicked == HandleMessage(old(Model()), m, outcome, now).panicked
    {
      ghost var s0 := Model();
      panicked := false;
      if m.msgType == GetCfg {
        SendWebSocketMessage(DmsUpdateMessage(dms, now));
      } else if m.msgType == Cfg {
        panicked := Configure(m.message, outcome, now);
      } else if m.msgType == CfgSelectedCA {
        var ca := SelectedCAOf(m.message);
        if |ca| > 0 {
          UpdateDms(dms.(selectedCA := ca), now);
        }
      } else if m.msgType == CfgAutoEnrollment {
        UpdateDms(dms.(automaticEnrollment := AutoEnrollOf(m.message)), now);
      } else if m.msgType == CfgAutoTransfer {
        UpdateDms(dms.(automaticCertificateTransfer := AutoTransferOf(m.message)), now);
      } else if m.msgType == AuthEnroll || m.msgType == AuthTransfer {
        AuthorizationsSetFlag(s0, m, outcome, now);
        if enrollment.Some? {
          if m.msgType == AuthEnroll {
            enrollment := Some(enrollment.value.(authorizedEnrollment := true));
          } else {
            enrollment := Some(enrollment.value.(authorizedCertificateTransfer := true));
          }
        }
      } else {
        UnknownMessageIgnored(s0, m, outcome, now);
      }
    }

    /** `case "CFG"` of the handler. */
    method Configure(body: DmsBody, outcome: RegistrationOutcome, now: int) returns (panicked: bool)
      modifies this
      ensures Model() == Register(old(Model()), body, outcome, now).next
      ensures panicked == Register(old(Model()), body, outcome, now).panicked
    {
      panicked := false;
      match outcome
      case ClientFailed(err) => SendWebSocketMessage(ErrorMessage("Error creating DMS Client: " + err, now));
      case CreateFailed(err) => SendWebSocketMessage(ErrorMessage("Error creating DMS Instance: " + err, now));
      case KeyNotBase64(err) => SendWebSocketMessage(ErrorMessage("Error decoding private key: " + err, now));
      case KeyNotPem => panicked := true;
      case KeyInvalid(err) => SendWebSocketMessage(ErrorMessage("Error parsing private key: " + err, now));
      case Registered(key) =>
        dms := DmsState(AwaitingAuth, DmsNameOf(body), None, Some(key), None, "", false, false);
        approvalJobs := approvalJobs + 1;
        SendWebSocketMessage(DmsUpdateMessage(dms, now));
    }

    /** A configuration change: the DMS state is replaced and pushed. */
    method UpdateDms(d: DmsState, now: int)
      modifies this
      ensures Model() == Send(old(Model()).(dms := d), DmsUpdateMessage(d, now))
    {
      dms := d;
      SendWebSocketMessage(DmsUpdateMessage(dms, now));
    }

    /** One run of an approval job. */
    method ApprovalTick(lookup: DmsLookup, now: int)
      modifies this
      ensures Model() == ApprovalCheck(old(Model()), lookup, now)
    {
      if approvalJobs > 0 {
        match lookup
        case LookupFailed(err) => SendWebSocketMessage(ErrorMessage("Error checking DMS status: " + err, now));
        case NotApproved =>
        case Approved(cas, crt) =>
          dms := dms.(authorizedCAs := Some(cas));
          if |cas| > 0 && dms.selectedCA == "" {
            dms := dms.(selectedCA := cas[0]);
          }
          dms := dms.(status := Idle, certificate := Some(crt));
          SendWebSocketMessage(DmsUpdateMessage(dms, now));
      }
    }

    /** The `ENROLLING_PROCESS_UPDATE` push of the process, serialized first. */
    method SendProcessUpdate(now: int) returns (panicked: bool)
      requires enrollment.Some?
      modifies this
      ensures Model() == PushProcess(old(Model()), now).next
      ensures panicked == PushProcess(old(Model()), now).panicked
    {
      var r := SerializeEnrollmentAsWritten(enrollment.value);
      if r.Err? {
        return true;
      }
      SendWebSocketMessage(ProcessUpdateMessage(enrollment.value, now));
      panicked := false;
    }

    /** The `/enroll` handler up to its wait for the enrollment authorization. */
    method EnrollRoute(body: EnrollBody, csr: CsrOutcome, now: int) returns (panicked: bool)
      modifies this
      ensures Model() == EnrollRequest(old(Model()), body, csr, now).next
      ensures panicked == EnrollRequest(old(Model()), body, csr, now).panicked
    {
      StartRequest(body, csr, now);
      if csr.decoded.NoPemBlock? {
        return true;
      }
      panicked := AtStep1(if csr.decoded.CsrParsed? then Some(csr.decoded.subject) else None, now);
    }

    /** The handler up to the PEM decoding, one field at a time. */
    method StartRequest(body: EnrollBody, csr: CsrOutcome, now: int)
      modifies this
      ensures Model() == RequestStart(old(Model()), body, csr, now)
    {
      ghost var s0 := Model();
      dms := dms.(status := Enrolling);
      var p := NewProcess(dms);
      assert p == NewProcess(s0.dms);
      route := NoRoute;
      if !body.ok {
        dms := dms.(status := Idle);
      }
      p := p.(deviceId := body.fields.serialNumber, deviceModel := body.fields.model, deviceSlot := body.fields.slot,
              requestingDate := now);
      enrollment := Some(p);
      if !csr.base64Ok {
        dms := dms.(status := Idle);
      }
      if csr.decoded.NotCsr? {
        dms := dms.(status := Idle);
      }
    }

    /** The `/enroll` handler from `STEP_1` to its wait. */
    method AtStep1(subject: Option<Subject>, now: int) returns (panicked: bool)
      requires enrollment.Some? && enrollment.value.certificate.None? && route == NoRoute
      modifies this
      ensures Model() == ReachStep1(old(Model()), subject, now).next
      ensures panicked == ReachStep1(old(Model()), subject, now).panicked
    {
      enrollment := Some(enrollment.value.(csrSubject := subject, status := Step1));
      panicked := SendProcessUpdate(now);
      if !panicked {
        route := AwaitingEnrollAuth;
      }
    }

    /** The `/enroll` handler after its wait for the enrollment authorization. */
    method ResumeAfterEnrollAuth(est: EstOutcome, now: int) returns (panicked: bool)
      modifies this
      ensures Model() == AfterEnrollAuth(old(Model()), est, now).next
      ensures panicked == AfterEnrollAuth(old(Model()), est, now).panicked
    {
      if !AwaitsEnrollAuth(Model()) {
        return false;
      }
      route := NoRoute;
      match est
      case EstClientFailed =>
        dms := dms.(status := Idle);
        panicked := true;
      case EstEnrollFailed =>
        dms := dms.(status := Idle);
        panicked := false;
      case EstEnrolled(crt, serialText) =>
        panicked := Issue(crt, serialText, now);
    }

    /** The `/enroll` handler from the issued certificate to its second wait. */
    method Issue(crt: Certificate, serialText: string, now: int) returns (panicked: bool)
      requires enrollment.Some? && route == NoRoute
      modifies this
      ensures Model() == Issued(old(Model()), crt, serialText, now).next
      ensures panicked == Issued(old(Model()), crt, serialText, now).panicked
    {
      enrollment := Some(enrollment.value.(status := Step2));
      panicked := SendProcessUpdate(now);
      if panicked {
        return;
      }
      enrollment := Some(enrollment.value.(certificate := Some(crt), serialNumber := serialText,
                                           expirationDate := crt.notAfter, status := Step3));
      panicked := SendProcessUpdate(now);
      if !panicked {
        route := AwaitingTransferAuth;
      }
    }

    /** The `/enroll` handler after its wait for the transfer authorization:
        the identity list is serialized by a loop. */
    method ResumeAfterTransferAuth(now: int) returns (panicked: bool)
      modifies this
      ensures Model() == AfterTransferAuth(old(Model()), now).next
      ensures panicked == AfterTransferAuth(old(Model()), now).panicked
    {
      if !AwaitsTransferAuth(Model()) {
        return false;
      }
      enrollment := Some(enrollment.value.(status := Step4));
      route := NoRoute;
      panicked := SendProcessUpdate(now);
      if panicked {
        return;
      }
      identities := identities + [NewIdentity(enrollment.value)];
      var serialized := SerializeIdentities(identities);
      assert serialized == SerializedIdentities(identities);
      SendWebSocketMessage(Envelope(EnrolledIdentitiesUpdate, IdentitiesBody(serialized), now));
    }
  }
}
