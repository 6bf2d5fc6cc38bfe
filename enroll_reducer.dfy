/** The DMS console's enrollment-process slice: the last `ENROLLING_PROCESS_UPDATE`
    the backend pushed, with its `STEP_n` status read back as the number n. */
module EnrollProcesorReducer {
  import opened Wrappers
  import opened Redux
  import opened DmsModel
  import opened JsStrings
  import opened JsNumbers
  import Decimal

  /** `step` is whatever `parseInt` made of the status; the two dates are
      `undefined` until the first update. */
  datatype EnrollView = EnrollView(
    step: JsNumber,
    requestingDate: Option<int>,
    deviceModel: string,
    deviceId: string,
    deviceSlot: string,
    certificateRequest: string,
    authorizedEnrollment: bool,
    certificate: string,
    serialNumber: string,
    expirationDate: Option<int>,
    authorizedCertificateTransfer: bool)

  function Initial(): EnrollView
  {
    EnrollView(Num(0), None, "", "", "", "", false, "", "", None, false)
  }

  /** `parseInt(status.split("_")[1])`. */
  function StepOf(status: string): JsNumber
  {
    ParseIntOf(At(Split(status, '_'), 1))
  }

  /** The view of one pushed process record. */
  function ViewOf(p: EnrollmentSerialized): EnrollView
  {
    EnrollView(StepOf(p.status), Some(p.requestingDate), p.deviceModel, p.deviceId,
               p.deviceSlot, p.certificateRequest, p.authorizedEnrollment, p.certificate,
               p.serialNumber, Some(p.expirationDate), p.authorizedCertificateTransfer)
  }

  /** The reducer: an update replaces every field (the previous view plays no
      part); any other action, or an update without a process body, leaves the
      view as it was. */
  function Reduce(s: EnrollView, a: Action<DmsBody>): (r: EnrollView)
    ensures a.actionType != EnrollingProcessUpdate ==> r == s
    ensures !(a.value.Some? && a.value.value.message.EnrollingBody?) ==> r == s
    ensures a.actionType == EnrollingProcessUpdate && a.value.Some? && a.value.value.message.EnrollingBody? ==>
              var p := a.value.value.message.process;
              && r.step == StepOf(p.status)
              && r.requestingDate == Some(p.requestingDate)
              && r.deviceModel == p.deviceModel
              && r.deviceId == p.deviceId
              && r.deviceSlot == p.deviceSlot
              && r.certificateRequest == p.certificateRequest
              && r.authorizedEnrollment == p.authorizedEnrollment
              && r.certificate == p.certificate
              && r.serialNumber == p.serialNumber
              && r.expirationDate == Some(p.expirationDate)
              && r.authorizedCertificateTransfer == p.authorizedCertificateTransfer
  {
    if a.actionType == EnrollingProcessUpdate && a.value.Some? && a.value.value.message.EnrollingBody? then
      ViewOf(a.value.value.message.process)
    else s
  }

  /** The step shown is a function of the pushed record alone. */
  lemma ReduceForgetsPrevious(s: EnrollView, t: EnrollView, a: Action<DmsBody>)
    requires a.actionType == EnrollingProcessUpdate
    requires a.value.Some? && a.value.value.message.EnrollingBody?
    ensures Reduce(s, a) == Reduce(t, a)
  {
  }

  /** `"STEP_" + n` reads back as the step number n, for every n. */
  lemma StepOfTag(n: nat)
    ensures StepOf("STEP_" + Decimal.NatToString(n)) == Num(n)
  {
    var digits := Decimal.NatToString(n);
    assert '_' !in digits by {
      forall k | 0 <= k < |digits| ensures digits[k] != '_' {
        assert Decimal.IsDigit(digits[k]);
      }
    }
    assert "STEP_" + digits == Join(["STEP", digits], '_');
    SplitJoin(["STEP", digits], '_');
    ParseIntOfDecimal(n);
  }

  /** Every status the backend writes reads back as its step number, except the
      unset status (the empty string), which reads as NaN. */
  lemma StepOfStatusName(st: EnrollmentStatus)
    ensures st == Unset ==> StepOf(EnrollmentStatusName(st)) == NaN
    ensures st != Unset ==> StepOf(EnrollmentStatusName(st)) == Num(StepNumber(st))
  {
    var n := StepNumber(st);
    if st != Unset {
      assert Decimal.NatToString(n) == [Decimal.DigitChar(n)];
      assert EnrollmentStatusName(st) == "STEP_" + Decimal.NatToString(n);
      StepOfTag(n);
    }
  }

  /** What the console shows after the backend pushed the serialization of `p`
      (one `Serialize` does not panic on): the step number of its status,
      every field of the process, and an empty CSR or certificate text exactly
      when the process has none; a subject with both or neither of Country
      and OU shows as its intended line. */
  lemma ShowsServerRecord(s: EnrollView, p: EnrollmentInProcess, now: int)
    requires SerializeEnrollmentAsWritten(p).Ok?
    ensures var a := Action(EnrollingProcessUpdate, Some(Envelope(EnrollingProcessUpdate, EnrollingBody(SerializeEnrollmentAsWritten(p).value), now)));
            var r := Reduce(s, a);
            && (p.status == Unset ==> r.step == NaN)
            && (p.status != Unset ==> r.step == Num(StepNumber(p.status)))
            && r.requestingDate == Some(p.requestingDate) && r.deviceModel == p.deviceModel
            && r.deviceId == p.deviceId && r.deviceSlot == p.deviceSlot
            && r.serialNumber == p.serialNumber && r.expirationDate == Some(p.expirationDate)
            && r.authorizedEnrollment == p.authorizedEnrollment
            && r.authorizedCertificateTransfer == p.authorizedCertificateTransfer
            && (r.certificateRequest == "" <==> p.csrSubject.None?)
            && (r.certificate == "" <==> p.certificate.None?)
            && (p.csrSubject.Some? && (|p.csrSubject.value.country| > 0 <==> |p.csrSubject.value.organizationalUnit| > 0) ==>
                  r.certificateRequest == SubjectText(p.csrSubject.value))
            && (p.certificate.Some? &&
                (|p.certificate.value.subject.country| > 0 <==> |p.certificate.value.subject.organizationalUnit| > 0) ==>
                  r.certificate == SubjectText(p.certificate.value.subject))
  {
    StepOfStatusName(p.status);
    if p.csrSubject.Some? {
      SubjectGuardAgreement(p.csrSubject.value);
    }
    if p.certificate.Some? {
      SubjectGuardAgreement(p.certificate.value.subject);
    }
  }
}
