/** The logic the DMS console's page derives from the store: the colour of each
    step label, which panels and buttons show, the commands its controls send,
    and the effects that keep the enrollment CA in step with the backend. */
module DmsApp {
  import opened Wrappers
  import opened Redux
  import opened DmsModel
  import opened JsNumbers
  import opened ArrowSeparator
  import EnrollProcesorReducer
  import DmsReducer
  import WebsocketReducer

  type EnrollView = EnrollProcesorReducer.EnrollView

  /** The four step labels, in the order the page numbers them. */
  datatype Stage = RequestingCertificate | GeneratingIdentity | ReceivingIdentity | TransferringCertificate

  function StageNumber(l: Stage): nat
  {
    match l
    case RequestingCertificate => 1
    case GeneratingIdentity => 2
    case ReceivingIdentity => 3
    case TransferringCertificate => 4
  }

  /** The `...LabelLoading` argument of each label. */
  predicate Loading(v: EnrollView, l: Stage)
  {
    match l
    case RequestingCertificate => v.step.Is(0)
    case GeneratingIdentity => v.step.Is(1) && !v.authorizedEnrollment
    case ReceivingIdentity => v.step.Is(2)
    case TransferringCertificate => v.step.Is(3) && !v.authorizedCertificateTransfer
  }

  /** The `...LabelLoaded` argument of each label. */
  predicate Loaded(v: EnrollView, l: Stage)
  {
    match l
    case RequestingCertificate => v.step.AtLeast(1)
    case GeneratingIdentity => v.step.AtLeast(2)
    case ReceivingIdentity => v.step.AtLeast(3)
    case TransferringCertificate => v.step.AtLeast(4)
  }

  /** The two steps that wait on an operator warn in orange. */
  predicate UseWarn(l: Stage)
  {
    l == GeneratingIdentity || l == TransferringCertificate
  }

  function StageColor(v: EnrollView, l: Stage): Color
  {
    LabelColor(Loaded(v, l), Loading(v, l), UseWarn(l))
  }

  /** A label is green exactly when the process has reached its step number. */
  lemma GreenIffReached(v: EnrollView, l: Stage)
    ensures StageColor(v, l) == Green <==> v.step.AtLeast(StageNumber(l))
  {
  }

  /** A label is orange exactly when the process waits on the operator's
      authorization for that step. */
  lemma OrangeIffAwaitingOperator(v: EnrollView, l: Stage)
    ensures StageColor(v, l) == Orange <==>
              (l == GeneratingIdentity && v.step.Is(1) && !v.authorizedEnrollment) ||
              (l == TransferringCertificate && v.step.Is(3) && !v.authorizedCertificateTransfer)
  {
  }

  /** At most one arrow blinks, and a blinking arrow belongs to a label that is
      not green yet. */
  lemma OneStageUnderWay(v: EnrollView, l: Stage, m: Stage)
    requires Loading(v, l) && Loading(v, m)
    ensures l == m && StageColor(v, l) != Green
  {
  }

  /** After the backend pushes the record of `p`, the labels up to the step of
      its status are green and the later ones are not; a record with no status
      yet shows every label white and no arrow blinking. */
  lemma ColorsOfServerRecord(s: EnrollView, p: EnrollmentInProcess, now: int, l: Stage)
    requires SerializeEnrollmentAsWritten(p).Ok?
    ensures var a := Action(EnrollingProcessUpdate, Some(Envelope(EnrollingProcessUpdate, EnrollingBody(SerializeEnrollmentAsWritten(p).value), now)));
            var v := EnrollProcesorReducer.Reduce(s, a);
            (p.status != Unset ==> (StageColor(v, l) == Green <==> StageNumber(l) <= StepNumber(p.status))) &&
            (p.status == Unset ==> StageColor(v, l) == White && ArrowAnimation(Loading(v, l)) == Still)
  {
    EnrollProcesorReducer.ShowsServerRecord(s, p, now);
  }

  /** The two panels under the arrows. */
  datatype Panel = Details | NoProcess | AwaitingPki

  /** The left panel: the request's details once `step > 0`. */
  function LeftPanel(v: EnrollView): (p: Panel)
    ensures p == Details <==> v.step.Above(0)
    ensures p != AwaitingPki
  {
    if v.step.Above(0) then Details else NoProcess
  }

  /** The right panel: the certificate's details once `step > 2`, nothing to
      show at `step === 0`, and a wait for the PKI in every other case. */
  function RightPanel(v: EnrollView): (p: Panel)
    ensures p == Details <==> v.step.Above(2)
    ensures p == NoProcess <==> v.step.Is(0)
    ensures p == AwaitingPki <==> !v.step.Above(2) && !v.step.Is(0)
  {
    if v.step.Above(2) then Details else if v.step.Is(0) then NoProcess else AwaitingPki
  }

  /** The panels never show the certificate without the request, but a step
      that is not a number makes them disagree: the left one says no process
      is under way while the right one waits for the PKI. */
  lemma PanelsOfNaN(v: EnrollView)
    ensures RightPanel(v) == Details ==> LeftPanel(v) == Details
    ensures v.step == NaN ==> LeftPanel(v) == NoProcess && RightPanel(v) == AwaitingPki
  {
  }

  /** The registration form replaces the whole board while the DMS is unregistered. */
  predicate ShowsRegistration(d: DmsReducer.DmsView)
  {
    d.status == "EMPTY"
  }

  /** The Authorize button: the request's details are up and enrollment is
      not authorized automatically. */
  predicate ShowsAuthorize(v: EnrollView, d: DmsReducer.DmsView)
  {
    !ShowsRegistration(d) && LeftPanel(v) == Details && !d.autoEnrollment
  }

  /** The Transfer button: the certificate's details are up and the transfer
      is not authorized automatically. */
  predicate ShowsTransfer(v: EnrollView, d: DmsReducer.DmsView)
  {
    !ShowsRegistration(d) && RightPanel(v) == Details && !d.autoCertificateTransfer
  }

  /** The reconnect button. */
  predicate ShowsReconnect(w: WebsocketReducer.WebSocketState<DmsBody>)
  {
    w.state == WebsocketReducer.Disconnected
  }

  datatype StatusBadge = Ready | Attention

  /** The header icon: a check on the theme colour when `IDLE`, an exclamation
      on orange for every other status. */
  function StatusBadgeOf(d: DmsReducer.DmsView): (b: StatusBadge)
    ensures b == Ready <==> d.status == "IDLE"
  {
    if d.status == "IDLE" then Ready else Attention
  }

  /** The Transfer button is never up while the Authorize button could not be
      (same DMS settings aside): the certificate comes after the request. */
  lemma TransferAfterAuthorize(v: EnrollView, d: DmsReducer.DmsView)
    requires ShowsTransfer(v, d) && !d.autoEnrollment
    ensures ShowsAuthorize(v, d)
  {
  }

  /** The command the Register button sends. */
  function RegisterCommand(operatorUsername: string, operatorPassword: string, dmsName: string, now: int): (a: Action<DmsBody>)
    ensures a.actionType == WsSendMessage && a.value.Some? && a.value.value.msgType == Cfg
    ensures DmsNameOf(a.value.value.message) == dmsName
  {
    SendCommand(Cfg, Fields(Some(operatorUsername), Some(operatorPassword), Some(dmsName), None, None, None), now)
  }

  /** The commands of the Authorize and Transfer buttons carry an empty object. */
  function AuthorizeCommand(now: int): (a: Action<DmsBody>)
    ensures a.actionType == WsSendMessage && a.value.Some? && a.value.value.msgType == AuthEnroll
    ensures a.value.value.message == NoFields()
  {
    SendCommand(AuthEnroll, NoFields(), now)
  }

  function TransferCommand(now: int): (a: Action<DmsBody>)
    ensures a.actionType == WsSendMessage && a.value.Some? && a.value.value.msgType == AuthTransfer
    ensures a.value.value.message == NoFields()
  {
    SendCommand(AuthTransfer, NoFields(), now)
  }

  /** The "Requires manual approval while enrolling" switch as written: it sends
      `auto_enroll` equal to its own position. */
  function ManualEnrollApprovalAsWritten(checked: bool, now: int): Action<DmsBody>
  {
    SendCommand(CfgAutoEnrollment, Fields(None, None, None, None, Some(checked), None), now)
  }

  /** The switch sends the opposite of its position: manual approval required
      means automatic enrollment off. */
  function ManualEnrollApproval(requiresApproval: bool, now: int): (a: Action<DmsBody>)
    ensures a.actionType == WsSendMessage && a.value.Some? && a.value.value.msgType == CfgAutoEnrollment
    ensures AutoEnrollOf(a.value.value.message) == !requiresApproval
  {
    SendCommand(CfgAutoEnrollment, Fields(None, None, None, None, Some(!requiresApproval), None), now)
  }

  /** The transfer switch, as written and corrected alike. */
  function ManualTransferApprovalAsWritten(checked: bool, now: int): Action<DmsBody>
  {
    SendCommand(CfgAutoTransfer, Fields(None, None, None, None, None, Some(checked)), now)
  }

  function ManualTransferApproval(requiresApproval: bool, now: int): (a: Action<DmsBody>)
    ensures a.actionType == WsSendMessage && a.value.Some? && a.value.value.msgType == CfgAutoTransfer
    ensures AutoTransferOf(a.value.value.message) == !requiresApproval
  {
    SendCommand(CfgAutoTransfer, Fields(None, None, None, None, None, Some(!requiresApproval)), now)
  }

  /** Switching "requires manual approval" on, as written, tells the backend to
      authorize automatically, the opposite of the corrected switch. */
  lemma ManualApprovalSwitchInverted(now: int)
    ensures AutoEnrollOf(ManualEnrollApprovalAsWritten(true, now).value.value.message)
    ensures AutoTransferOf(ManualTransferApprovalAsWritten(true, now).value.value.message)
    ensures ManualEnrollApprovalAsWritten(true, now) != ManualEnrollApproval(true, now)
  {
    assert AutoEnrollOf(ManualEnrollApproval(true, now).value.value.message) == false;
  }

  // ---------------------------------------------------------------------
  // The enrollment-CA selection effects.

  /** `GET_CFG` carries no body. */
  function GetCfgCommand(now: int): (a: Action<DmsBody>)
    ensures a.actionType == WsSendMessage && a.value.Some? && a.value.value.msgType == GetCfg
  {
    Action(WsSendMessage, Some(Envelope(GetCfg, Absent, now)))
  }

  function SelectCACommand(ca: string, now: int): (a: Action<DmsBody>)
    ensures a.actionType == WsSendMessage && a.value.Some? && a.value.value.msgType == CfgSelectedCA
    ensures SelectedCAOf(a.value.value.message) == ca
  {
    SendCommand(CfgSelectedCA, Fields(None, None, None, Some(ca), None, None), now)
  }

  /** The component state `selectedCAForEnrollment` (undefined at first) and the
      commands its effects have dispatched. */
  datatype CaSync = CaSync(local: Option<string>, sent: seq<Action<DmsBody>>)

  /** Setting the local selection, followed by the effect keyed on it: the
      effect runs, and sends the selection, only when the value changed. */
  function Select(s: CaSync, ca: string, now: int): (r: CaSync)
    ensures r.local == Some(ca)
    ensures s.local == Some(ca) ==> r.sent == s.sent
    ensures s.local != Some(ca) ==> r.sent == s.sent + [SelectCACommand(ca, now)]
  {
    if s.local == Some(ca) then s.(local := Some(ca))
    else CaSync(Some(ca), s.sent + [SelectCACommand(ca, now)])
  }

  /** The first render: `GET_CFG` goes out, then the effect on the DMS slice
      copies its `selectedCA` into the (undefined) local selection, which sends
      it, even when it is the initial empty string. */
  function Mounted(serverCA: string, now: int): (r: CaSync)
    ensures r.local == Some(serverCA)
    ensures r.sent == [GetCfgCommand(now), SelectCACommand(serverCA, now)]
  {
    Select(CaSync(None, [GetCfgCommand(now)]), serverCA, now)
  }

  /** The two ways the local selection changes: the DMS slice changed (any
      push that rebuilt it), or the operator picked a CA in the menu. */
  datatype CaEvent = ServerPush(ca: string, now: int) | UserPick(ca: string, now: int)

  function ApplyCa(s: CaSync, e: CaEvent): CaSync
  {
    Select(s, e.ca, e.now)
  }

  function RunCa(s: CaSync, evs: seq<CaEvent>): CaSync
    decreases |evs|
  {
    if evs == [] then s else RunCa(ApplyCa(s, evs[0]), evs[1..])
  }

  /** The CAs of the `CFG_SELECTED_CA_FOR_ENROLLMENT` commands among `sent`, in order. */
  function SentCAs(sent: seq<Action<DmsBody>>): seq<string>
    decreases |sent|
  {
    if sent == [] then []
    else
      var last := sent[|sent| - 1];
      SentCAs(sent[..|sent| - 1]) +
        (if last.value.Some? && last.value.value.msgType == CfgSelectedCA then [SelectedCAOf(last.value.value.message)] else [])
  }

  predicate NoRepeats(xs: seq<string>)
  {
    forall i :: 0 <= i < |xs| - 1 ==> xs[i] != xs[i + 1]
  }

  /** What the effects keep true: no CA is sent twice in a row, and the last CA
      sent is the local selection. */
  predicate Coherent(s: CaSync)
  {
    var cas := SentCAs(s.sent);
    NoRepeats(cas) && (cas != [] <==> s.local.Some?) && (cas != [] ==> s.local == Some(cas[|cas| - 1]))
  }

  lemma MountedCoherent(serverCA: string, now: int)
    ensures Coherent(Mounted(serverCA, now))
  {
    var sent := Mounted(serverCA, now).sent;
    assert sent[..1] == [GetCfgCommand(now)];
    assert sent[..1][..0] == [];
    assert SentCAs(sent[..1]) == [];
    assert SentCAs(sent) == [serverCA];
  }

  lemma SelectCoherent(s: CaSync, ca: string, now: int)
    requires Coherent(s)
    ensures Coherent(Select(s, ca, now))
  {
    var r := Select(s, ca, now);
    if s.local != Some(ca) {
      assert r.sent[..|r.sent| - 1] == s.sent;
      assert SentCAs(r.sent) == SentCAs(s.sent) + [ca];
    }
  }

  /** Whatever mix of pushes and picks follows, the effects stay coherent: the
      local selection is the last CA sent and no CA is sent twice in a row. */
  lemma {:induction false} RunCaCoherent(s: CaSync, evs: seq<CaEvent>)
    requires Coherent(s)
    ensures Coherent(RunCa(s, evs))
    decreases |evs|
  {
    if evs != [] {
      SelectCoherent(s, evs[0].ca, evs[0].now);
      RunCaCoherent(ApplyCa(s, evs[0]), evs[1..]);
    }
  }

  /** The backend answers a selection with a `DMS_UPDATE` carrying it; that echo
      sends nothing more, so the exchange stops after one round. */
  lemma EchoSettles(s: CaSync, ca: string, picked: int, echoed: int)
    ensures RunCa(s, [UserPick(ca, picked), ServerPush(ca, echoed)]).sent == Select(s, ca, picked).sent
  {
    var evs := [UserPick(ca, picked), ServerPush(ca, echoed)];
    var first := Select(s, ca, picked);
    assert evs[1..] == [ServerPush(ca, echoed)];
    assert RunCa(s, evs) == RunCa(first, [ServerPush(ca, echoed)]);
    assert RunCa(first, [ServerPush(ca, echoed)]) == RunCa(Select(first, ca, echoed), []);
  }

  /** A push carrying a CA other than the local one is re-sent to the backend:
      the page treats a server change like an operator's pick. A push of the
      old value that arrives after a pick (an identity update, say) reverts the
      pick and sends the old CA back. */
  lemma PushAfterPickReverts(s: CaSync, old_ca: string, picked_ca: string, t1: int, t2: int)
    requires s.local == Some(old_ca) && picked_ca != old_ca
    ensures RunCa(s, [UserPick(picked_ca, t1), ServerPush(old_ca, t2)]) ==
              CaSync(Some(old_ca), s.sent + [SelectCACommand(picked_ca, t1), SelectCACommand(old_ca, t2)])
  {
    var evs := [UserPick(picked_ca, t1), ServerPush(old_ca, t2)];
    var first := Select(s, picked_ca, t1);
    assert evs[1..] == [ServerPush(old_ca, t2)];
    assert RunCa(s, evs) == RunCa(first, [ServerPush(old_ca, t2)]);
    assert RunCa(first, [ServerPush(old_ca, t2)]) == RunCa(Select(first, old_ca, t2), []);
  }

  /** The selection state of the mounted page. */
  class CaSelection {
    var local: Option<string>
    var sent: seq<Action<DmsBody>>

    function Model(): CaSync
      reads this
    {
      CaSync(local, sent)
    }

    constructor Mount(serverCA: string, now: int)
      ensures Model() == Mounted(serverCA, now)
    {
      local := Some(serverCA);
      sent := [GetCfgCommand(now), SelectCACommand(serverCA, now)];
    }

    /** `setSelectedCAForEnrollment`, from the DMS effect or from the menu. */
    method Apply(e: CaEvent)
      modifies this
      ensures Model() == ApplyCa(old(Model()), e)
    {
      if local != Some(e.ca) {
        sent := sent + [SelectCACommand(e.ca, e.now)];
      }
      local := Some(e.ca);
    }
  }
}
