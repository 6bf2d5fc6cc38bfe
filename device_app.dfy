/** The device console's page: the slot shown (the one whose identifier is the
    selection), the gates of its command buttons, its status badge, the
    expiration countdown kept up to date by a one-second interval, and the
    commands the buttons send. */
module DeviceApp {
  import opened Wrappers
  import opened Redux
  import opened JsNumbers
  import opened DeviceModel
  import opened DeviceChannel
  import opened DeviceManagerReducer
  import SerializedDevice
  import DeviceService
  import DeviceTransport

  /** The slot selected when the page opens. */
  const InitialSelection: string := "default"

  /** The console's view of a state the backend holds. */
  function BackendView(d: DeviceState): DeviceView
  {
    DeviceViewOf(SerializedDevice.SerializedDeviceOf(d))
  }

  // ---------------------------------------------------------------------
  // The selected slot

  /** `deviceState.slots.filter(s => s.id === selectedSlotID)`. */
  function FilteredSlots(slots: seq<SlotView>, id: string): (r: seq<SlotView>)
    ensures |r| <= |slots|
    ensures forall v :: v in r ==> v in slots && v.id == id
    ensures forall k :: 0 <= k < |slots| && slots[k].id == id ==> slots[k] in r
    decreases |slots|
  {
    if slots == [] then []
    else
      var rest := FilteredSlots(slots[1..], id);
      assert forall k :: 1 <= k < |slots| ==> slots[k] == slots[1..][k - 1];
      if slots[0].id == id then [slots[0]] + rest else rest
  }

  /** The filter keeps every matching slot as often as it occurs, and drops
      every other one. */
  lemma {:induction false} FilterCounts(slots: seq<SlotView>, id: string)
    ensures forall v :: multiset(FilteredSlots(slots, id))[v] == if v.id == id then multiset(slots)[v] else 0
    decreases |slots|
  {
    if slots != [] {
      FilterCounts(slots[1..], id);
      assert slots == [slots[0]] + slots[1..];
      assert multiset(slots) == multiset([slots[0]]) + multiset(slots[1..]);
    }
  }

  /** The filter keeps the slots in their order: filtering a concatenation
      concatenates the filtered parts. */
  lemma {:induction false} FilterKeepsOrder(a: seq<SlotView>, b: seq<SlotView>, id: string)
    ensures FilteredSlots(a + b, id) == FilteredSlots(a, id) + FilteredSlots(b, id)
    decreases |a|
  {
    if a != [] {
      assert (a + b)[1..] == a[1..] + b;
      FilterKeepsOrder(a[1..], b, id);
    } else {
      assert a + b == b;
    }
  }

  /** The page shows a slot only when exactly one carries the selected
      identifier. */
  function SelectedSlot(slots: seq<SlotView>, id: string): (r: Option<SlotView>)
    ensures r.Some? <==> |FilteredSlots(slots, id)| == 1
    ensures r.Some? ==> r.value in slots && r.value.id == id
  {
    var f := FilteredSlots(slots, id);
    if |f| == 1 then Some(f[0]) else None
  }

  predicate UniqueIds(slots: seq<SlotView>)
  {
    forall i, j :: 0 <= i < j < |slots| ==> slots[i].id != slots[j].id
  }

  /** When no slot carries the identifier the filter finds none. */
  lemma {:induction false} FilterFindsNone(slots: seq<SlotView>, id: string)
    requires forall k :: 0 <= k < |slots| ==> slots[k].id != id
    ensures FilteredSlots(slots, id) == []
    decreases |slots|
  {
    if slots != [] {
      FilterFindsNone(slots[1..], id);
    }
  }

  /** With pairwise distinct identifiers the filter finds exactly the slot
      carrying the identifier. */
  lemma {:induction false} FilterFindsUnique(slots: seq<SlotView>, id: string, k: int)
    requires UniqueIds(slots) && 0 <= k < |slots| && slots[k].id == id
    ensures FilteredSlots(slots, id) == [slots[k]]
    decreases |slots|
  {
    if k == 0 {
      FilterFindsNone(slots[1..], id);
    } else {
      assert slots[1..][k - 1] == slots[k];
      FilterFindsUnique(slots[1..], id, k - 1);
    }
  }

  /** With pairwise distinct identifiers a slot is shown exactly when one
      carries the selected identifier, and it is that slot. */
  lemma SelectionOfUniqueIds(slots: seq<SlotView>, id: string)
    requires UniqueIds(slots)
    ensures SelectedSlot(slots, id).Some? <==> exists k :: 0 <= k < |slots| && slots[k].id == id
    ensures forall k :: 0 <= k < |slots| && slots[k].id == id ==> SelectedSlot(slots, id) == Some(slots[k])
  {
    forall k | 0 <= k < |slots| && slots[k].id == id
      ensures SelectedSlot(slots, id) == Some(slots[k])
    {
      FilterFindsUnique(slots, id, k);
    }
    if SelectedSlot(slots, id).Some? {
      var v := SelectedSlot(slots, id).value;
      var k :| 0 <= k < |slots| && slots[k] == v;
      assert slots[k].id == id;
    }
  }

  /** The view of a state the service reaches carries the service's slots, in
      order, with identifiers that are pairwise distinct. */
  lemma BackendViewSlots(serial: string, calls: seq<DeviceService.Call>)
    ensures var d := DeviceService.PerformAll(DeviceService.New(serial), calls).device;
            var v := BackendView(d);
            && UniqueIds(v.slots) && |v.slots| == |d.slots|
            && (forall k :: 0 <= k < |d.slots| ==>
                  v.slots[k].id == d.slots[k].id && v.slots[k].status == SlotStatusName(d.slots[k].status))
            && v.status == DeviceStatusName(DeviceModel.Empty) && v.mqttConnected == Some(false)
  {
    DeviceService.NewValid(serial);
    DeviceService.PerformAllValid(DeviceService.New(serial), calls);
    DeviceService.SlotIdsStayDistinct(serial, calls);
  }

  // ---------------------------------------------------------------------
  // The command gates

  /** "Add New Slot" is enabled. */
  predicate CanAddSlot(d: DeviceView)
  {
    d.status == "WITH_ID"
  }

  /** "Issue First Identity" is enabled. */
  predicate CanIssueFirstIdentity(d: DeviceView, selected: string)
  {
    var f := FilteredSlots(d.slots, selected);
    |f| == 1 && f[0].status == "NEEDS_PROVISIONING"
  }

  /** "Renew Identity" is enabled. */
  predicate CanRenewIdentity(d: DeviceView, selected: string)
  {
    var f := FilteredSlots(d.slots, selected);
    |f| == 1 && (f[0].status == "PROVISIONED" || f[0].status == "NEEDS_REENROLLMENT")
  }

  /** On a view with distinct identifiers, "Issue First Identity" is enabled
      exactly when the selected slot exists and needs provisioning, "Renew
      Identity" exactly when it exists and is provisioned or needs renewal;
      never both. */
  lemma GatesOfView(v: DeviceView, d: DeviceState, selected: string)
    requires UniqueIds(v.slots) && |v.slots| == |d.slots|
    requires forall k :: 0 <= k < |d.slots| ==>
               v.slots[k].id == d.slots[k].id && v.slots[k].status == SlotStatusName(d.slots[k].status)
    ensures CanIssueFirstIdentity(v, selected) <==>
              exists k :: 0 <= k < |d.slots| && d.slots[k].id == selected && d.slots[k].status == NeedsProvisioning
    ensures CanRenewIdentity(v, selected) <==>
              exists k :: 0 <= k < |d.slots| && d.slots[k].id == selected &&
                          (d.slots[k].status == Provisioned || d.slots[k].status == NeedsReenrollment)
    ensures !(CanIssueFirstIdentity(v, selected) && CanRenewIdentity(v, selected))
  {
    SelectionOfUniqueIds(v.slots, selected);
    if CanIssueFirstIdentity(v, selected) || CanRenewIdentity(v, selected) {
      var w := FilteredSlots(v.slots, selected)[0];
      var k :| 0 <= k < |v.slots| && v.slots[k] == w;
      FilterFindsUnique(v.slots, selected, k);
    }
  }

  /** On every state the service reaches, "Add New Slot" is never enabled,
      since the service never gives the device an identity status, and the
      identity gates follow the slot statuses as above. */
  lemma GatesOnServiceStates(serial: string, calls: seq<DeviceService.Call>, selected: string)
    ensures var d := DeviceService.PerformAll(DeviceService.New(serial), calls).device;
            var v := BackendView(d);
            && !CanAddSlot(v)
            && (CanIssueFirstIdentity(v, selected) <==>
                  exists k :: 0 <= k < |d.slots| && d.slots[k].id == selected && d.slots[k].status == NeedsProvisioning)
            && (CanRenewIdentity(v, selected) <==>
                  exists k :: 0 <= k < |d.slots| && d.slots[k].id == selected &&
                              (d.slots[k].status == Provisioned || d.slots[k].status == NeedsReenrollment))
  {
    var d := DeviceService.PerformAll(DeviceService.New(serial), calls).device;
    BackendViewSlots(serial, calls);
    GatesOfView(BackendView(d), d, selected);
  }

  /** A slot left pending by a failed first enrollment, or left underway by a
      failed renewal, enables neither identity command. */
  lemma StuckSlotsOfferNoCommand(v: DeviceView, selected: string)
    requires SelectedSlot(v.slots, selected).Some?
    requires SelectedSlot(v.slots, selected).value.status in
               {SlotStatusName(PendingProvisioning), SlotStatusName(ReenrollmentUnderway)}
    ensures !CanIssueFirstIdentity(v, selected) && !CanRenewIdentity(v, selected)
  {
  }

  // ---------------------------------------------------------------------
  // The status badge

  datatype BadgeColor = Red | Green | Orange

  function ColorCode(c: BadgeColor): string
  {
    match c
    case Red => "#ED6059"
    case Green => "#25ee32"
    case Orange => "orange"
  }

  /** `statusColor`: red with no slot shown, then by the slot's status. */
  function StatusColor(d: DeviceView, selected: string): BadgeColor
  {
    match SelectedSlot(d.slots, selected)
    case None => Red
    case Some(slot) =>
      if slot.status == "PROVISIONED" then Green
      else if slot.status == "EXPIRED" then Red
      else Orange
  }

  /** What the badge holds: an icon, or the three blinking dots of an
      operation under way. */
  datatype Indicator = CrossIcon | CheckIcon | ExclamationIcon | ProgressDots

  /** `statusIcon`. */
  function StatusIcon(d: DeviceView, selected: string): Indicator
  {
    match SelectedSlot(d.slots, selected)
    case None => CrossIcon
    case Some(slot) =>
      if slot.status == "PROVISIONED" then CheckIcon
      else if slot.status == "EXPIRED" then CrossIcon
      else ExclamationIcon
  }

  /** The badge as the page renders it: the dots for the statuses tested,
      `PENDING_PROVISIONING` and `PENDING_REENROLLMENT`, otherwise the icon. */
  function BadgeAsWritten(d: DeviceView, selected: string): Indicator
  {
    match SelectedSlot(d.slots, selected)
    case Some(slot) =>
      if slot.status == "PENDING_PROVISIONING" || slot.status == "PENDING_REENROLLMENT" then ProgressDots
      else StatusIcon(d, selected)
    case None => StatusIcon(d, selected)
  }

  /** The badge as evidently intended: the dots for both statuses of an
      operation under way, as the backend names them. */
  function Badge(d: DeviceView, selected: string): Indicator
  {
    match SelectedSlot(d.slots, selected)
    case Some(slot) =>
      if slot.status == SlotStatusName(PendingProvisioning) || slot.status == SlotStatusName(ReenrollmentUnderway)
      then ProgressDots
      else StatusIcon(d, selected)
    case None => StatusIcon(d, selected)
  }

  /** The colour and the badge of a slot the backend serialized: green with a
      check when provisioned, red with a cross when expired, red with a cross
      when no slot is shown, orange otherwise; the intended badge shows the
      dots exactly while an enrollment or a renewal is under way. */
  lemma BadgeOfBackendSlot(d: DeviceState, selected: string, k: int)
    requires 0 <= k < |d.slots| && d.slots[k].id == selected
    requires UniqueIds(BackendView(d).slots)
    ensures var v := BackendView(d);
            var st := d.slots[k].status;
            && (StatusColor(v, selected) == Green <==> st == Provisioned)
            && (StatusColor(v, selected) == Red <==> st == Expired)
            && (StatusIcon(v, selected) == CheckIcon <==> st == Provisioned)
            && (Badge(v, selected) == ProgressDots <==> st == PendingProvisioning || st == ReenrollmentUnderway)
  {
    BackendSelection(d, selected, k);
    StatusNameTests(d.slots[k].status);
  }

  /** The status names the page tests for pick out one status each. */
  lemma StatusNameTests(st: SlotStatus)
    ensures SlotStatusName(st) == "PROVISIONED" <==> st == Provisioned
    ensures SlotStatusName(st) == "EXPIRED" <==> st == Expired
    ensures SlotStatusName(st) == SlotStatusName(PendingProvisioning) <==> st == PendingProvisioning
    ensures SlotStatusName(st) == SlotStatusName(ReenrollmentUnderway) <==> st == ReenrollmentUnderway
  {
    if SlotStatusName(st) == SlotStatusName(PendingProvisioning) {
      SlotStatusNamesDistinct(st, PendingProvisioning);
    }
    if SlotStatusName(st) == SlotStatusName(ReenrollmentUnderway) {
      SlotStatusNamesDistinct(st, ReenrollmentUnderway);
    }
    if SlotStatusName(st) == "PROVISIONED" {
      SlotStatusNamesDistinct(st, Provisioned);
    }
    if SlotStatusName(st) == "EXPIRED" {
      SlotStatusNamesDistinct(st, Expired);
    }
  }

  /** The slot the page shows for a backend state is the serialization of the
      one slot carrying the identifier. */
  lemma BackendSelection(d: DeviceState, selected: string, k: int)
    requires 0 <= k < |d.slots| && d.slots[k].id == selected
    requires UniqueIds(BackendView(d).slots)
    ensures SelectedSlot(BackendView(d).slots, selected).Some?
    ensures SelectedSlot(BackendView(d).slots, selected).value.status == SlotStatusName(d.slots[k].status)
  {
    var v := BackendView(d);
    assert v.slots[k].id == selected && v.slots[k].status == SlotStatusName(d.slots[k].status);
    SelectionOfUniqueIds(v.slots, selected);
  }

  /** With no slot shown the badge is red with a cross. */
  lemma BadgeWithoutSlot(v: DeviceView, selected: string)
    requires forall k :: 0 <= k < |v.slots| ==> v.slots[k].id != selected
    ensures StatusColor(v, selected) == Red && Badge(v, selected) == CrossIcon
  {
    FilterFindsNone(v.slots, selected);
  }

  /** As written, a renewal under way is never shown as progress: the page
      tests a status name the backend never sends and shows an exclamation
      mark instead. */
  lemma RenewalProgressNotShown(d: DeviceState, selected: string, k: int)
    requires 0 <= k < |d.slots| && d.slots[k].id == selected && d.slots[k].status == ReenrollmentUnderway
    requires UniqueIds(BackendView(d).slots)
    ensures BadgeAsWritten(BackendView(d), selected) == ExclamationIcon
    ensures Badge(BackendView(d), selected) == ProgressDots
  {
    SelectionOfUniqueIds(BackendView(d).slots, selected);
  }

  // ---------------------------------------------------------------------
  // The expiration countdown

  const SecondMillis: int := 1000
  const MinuteMillis: int := 60 * SecondMillis
  const HourMillis: int := 60 * MinuteMillis
  const DayMillis: int := 24 * HourMillis

  datatype Unit = Seconds | Minutes | Hours | Days

  function UnitMillis(u: Unit): int
  {
    match u
    case Seconds => SecondMillis
    case Minutes => MinuteMillis
    case Hours => HourMillis
    case Days => DayMillis
  }

  function UnitRank(u: Unit): nat
  {
    match u
    case Seconds => 0
    case Minutes => 1
    case Hours => 2
    case Days => 3
  }

  /** The countdown text `<date> (in <amount> <unit>)`: the expiration instant
      (which `moment` formats as the date), the amount and the unit. */
  datatype Countdown = Countdown(expiresAt: int, amount: int, unit: Unit)

  /** The countdown to `expiresAt` at `now` (milliseconds): the unit is chosen
      by strict thresholds of one minute, one hour and one day on the time
      left, and the amount is the time left rounded to the nearest unit, halves
      up. */
  function CountdownOf(expiresAt: int, now: int): (c: Countdown)
    ensures c.expiresAt == expiresAt
    ensures c.unit == Seconds <==> expiresAt - now <= MinuteMillis
    ensures c.unit == Minutes <==> MinuteMillis < expiresAt - now <= HourMillis
    ensures c.unit == Hours <==> HourMillis < expiresAt - now <= DayMillis
    ensures c.unit == Days <==> DayMillis < expiresAt - now
    ensures -UnitMillis(c.unit) < 2 * (c.amount * UnitMillis(c.unit) - (expiresAt - now)) <= UnitMillis(c.unit)
  {
    var diff := expiresAt - now;
    if diff > MinuteMillis then
      if diff > HourMillis then
        if diff > DayMillis then Countdown(expiresAt, RoundDiv(diff, DayMillis), Days)
        else Countdown(expiresAt, RoundDiv(diff, HourMillis), Hours)
      else Countdown(expiresAt, RoundDiv(diff, MinuteMillis), Minutes)
    else Countdown(expiresAt, RoundDiv(diff, SecondMillis), Seconds)
  }

  /** A time already past counts in seconds, and by a number that is not
      positive. */
  lemma PastIsSeconds(expiresAt: int, now: int)
    requires expiresAt <= now
    ensures CountdownOf(expiresAt, now).unit == Seconds && CountdownOf(expiresAt, now).amount <= 0
  {
  }

  /** No other amount is as close: the countdown's amount is the nearest. */
  lemma AmountIsNearest(expiresAt: int, now: int, k: int)
    requires var u := UnitMillis(CountdownOf(expiresAt, now).unit);
             -u < 2 * (k * u - (expiresAt - now)) <= u
    ensures k == CountdownOf(expiresAt, now).amount
  {
    var c := CountdownOf(expiresAt, now);
    RoundDivUnique(expiresAt - now, UnitMillis(c.unit), k);
  }

  /** The amounts stay within their unit: 1 to 60 minutes, 1 to 24 hours, at
      least one day, at most 60 seconds. */
  lemma AmountWithinUnit(expiresAt: int, now: int)
    ensures var c := CountdownOf(expiresAt, now);
            && (c.unit == Seconds ==> c.amount <= 60)
            && (c.unit == Minutes ==> 1 <= c.amount <= 60)
            && (c.unit == Hours ==> 1 <= c.amount <= 24)
            && (c.unit == Days ==> 1 <= c.amount)
  {
    var c := CountdownOf(expiresAt, now);
    var diff := expiresAt - now;
    match c.unit
    case Seconds =>
      assert 2 * (c.amount * 1000) <= 2 * diff + 1000;
    case Minutes =>
      assert 2 * (c.amount * 60000) <= 2 * diff + 60000;
      assert 2 * (c.amount * 60000) > 2 * diff - 60000;
    case Hours =>
      assert 2 * (c.amount * 3600000) <= 2 * diff + 3600000;
      assert 2 * (c.amount * 3600000) > 2 * diff - 3600000;
    case Days =>
      assert 2 * (c.amount * 86400000) > 2 * diff - 86400000;
  }

  /** A later expiration never counts in a smaller unit. */
  lemma UnitMonotone(e1: int, e2: int, now: int)
    requires e1 <= e2
    ensures UnitRank(CountdownOf(e1, now).unit) <= UnitRank(CountdownOf(e2, now).unit)
  {
  }

  // ---------------------------------------------------------------------
  // The countdown timer

  /** The `expirationDate` component state: empty, or a countdown. */
  datatype ExpirationText = NoText | Text(countdown: Countdown)

  /** One tick of the interval, on the slots it captured: a single slot with
      a positive expiration gets a fresh countdown; otherwise the text stays. */
  function TickText(captured: seq<SlotView>, now: int, text: ExpirationText): (r: ExpirationText)
    ensures |captured| == 1 && captured[0].expirationDate.Num? && captured[0].expirationDate.n > 0 ==>
              r == Text(CountdownOf(captured[0].expirationDate.n, now))
    ensures !(|captured| == 1 && captured[0].expirationDate.Num? && captured[0].expirationDate.n > 0) ==> r == text
  {
    if |captured| == 1 && captured[0].expirationDate.Num? && captured[0].expirationDate.n > 0 then
      Text(CountdownOf(captured[0].expirationDate.n, now))
    else text
  }

  /** The page's timer state: the selection, the filtered slots the running
      interval captured, its identifier, the intervals still live, the next
      identifier `setInterval` hands out, and the text shown. */
  datatype TimerState = TimerState(
    selected: string,
    captured: seq<SlotView>,
    interval: Option<nat>,
    live: set<nat>,
    nextInterval: nat,
    text: ExpirationText)

  function InitialTimer(): TimerState
  {
    TimerState(InitialSelection, [], None, {}, 0, NoText)
  }

  /** What happens to it: a new `deviceState` (every `DEVICE_UPDATED`, and
      the first render), a click on a slot, a tick of the interval. */
  datatype TimerEvent = DeviceChanged(device: DeviceView) | SlotClicked(id: string) | Tick(now: int)

  /** The effect on `deviceState`: the running interval is cleared, then a
      new one started over the slots filtered by the current selection. */
  function Restart(s: TimerState, device: DeviceView): (r: TimerState)
    ensures r.interval == Some(s.nextInterval) && r.nextInterval == s.nextInterval + 1
    ensures r.live == (if s.interval.Some? then s.live - {s.interval.value} else s.live) + {s.nextInterval}
    ensures r.captured == FilteredSlots(device.slots, s.selected)
    ensures r.selected == s.selected && r.text == s.text
  {
    var live := if s.interval.Some? then s.live - {s.interval.value} else s.live;
    s.(captured := FilteredSlots(device.slots, s.selected), interval := Some(s.nextInterval),
       live := live + {s.nextInterval}, nextInterval := s.nextInterval + 1)
  }

  function ApplyTimer(s: TimerState, e: TimerEvent): TimerState
  {
    match e
    case DeviceChanged(device) => Restart(s, device)
    case SlotClicked(id) => s.(selected := id)
    case Tick(now) => if s.interval.Some? then s.(text := TickText(s.captured, now, s.text)) else s
  }

  function RunTimer(s: TimerState, es: seq<TimerEvent>): TimerState
    decreases |es|
  {
    if es == [] then s else RunTimer(ApplyTimer(s, es[0]), es[1..])
  }

  /** At most one interval is live, and it is the one the state records. */
  predicate TimerValid(s: TimerState)
  {
    && (s.interval.None? ==> s.live == {})
    && (s.interval.Some? ==> s.live == {s.interval.value} && s.interval.value < s.nextInterval)
  }

  lemma {:induction false} RunTimerValid(s: TimerState, es: seq<TimerEvent>)
    requires TimerValid(s)
    ensures TimerValid(RunTimer(s, es)) && |RunTimer(s, es).live| <= 1
    decreases |es|
  {
    if es != [] {
      RunTimerValid(ApplyTimer(s, es[0]), es[1..]);
    } else if s.interval.Some? {
      assert s.live == {s.interval.value};
    }
  }

  /** A click on another slot does not restart the interval: the next tick
      still counts down to the slot selected when the device last changed. */
  lemma TickLagsSelection(s: TimerState, device: DeviceView, id: string, now: int)
    ensures RunTimer(s, [DeviceChanged(device), SlotClicked(id), Tick(now)]).text
            == TickText(FilteredSlots(device.slots, s.selected), now, s.text)
    ensures RunTimer(s, [DeviceChanged(device), SlotClicked(id), Tick(now)]).selected == id
  {
    var s1 := ApplyTimer(s, DeviceChanged(device));
    var s2 := ApplyTimer(s1, SlotClicked(id));
    assert RunTimer(s, [DeviceChanged(device), SlotClicked(id), Tick(now)])
           == RunTimer(s1, [SlotClicked(id), Tick(now)]);
    assert RunTimer(s1, [SlotClicked(id), Tick(now)]) == RunTimer(s2, [Tick(now)]);
  }

  /** The component's timer: the state hooks and the effect. */
  class ExpirationTimer {
    var selectedSlotID: string
    var captured: seq<SlotView>
    var intervalID: Option<nat>
    var live: set<nat>
    var nextInterval: nat
    var expirationDate: ExpirationText

    function Model(): TimerState
      reads this
    {
      TimerState(selectedSlotID, captured, intervalID, live, nextInterval, expirationDate)
    }

    constructor ()
      ensures Model() == InitialTimer()
    {
      selectedSlotID := InitialSelection;
      captured := [];
      intervalID := None;
      live := {};
      nextInterval := 0;
      expirationDate := NoText;
    }

    /** The effect on `deviceState`: `clearInterval`, then
        `triggerExpriationDateTimer`. */
    method DeviceStateChanged(device: DeviceView)
      modifies this
      ensures Model() == ApplyTimer(old(Model()), DeviceChanged(device))
    {
      if intervalID.Some? {
        live := live - {intervalID.value};
      }
      captured := FilteredSlots(device.slots, selectedSlotID);
      live := live + {nextInterval};
      intervalID := Some(nextInterval);
      nextInterval := nextInterval + 1;
    }

    method SelectSlot(id: string)
      modifies this
      ensures Model() == ApplyTimer(old(Model()), SlotClicked(id))
    {
      selectedSlotID := id;
    }

    /** The interval's callback, with the clock read as `now`. */
    method OnTick(now: int)
      modifies this
      ensures Model() == ApplyTimer(old(Model()), Tick(now))
    {
      if intervalID.None? {
        return;
      }
      var newText := NoText;
      if |captured| == 1 && captured[0].expirationDate.Num? && captured[0].expirationDate.n > 0 {
        newText := Text(CountdownOf(captured[0].expirationDate.n, now));
      }
      if newText != NoText {
        expirationDate := newText;
      }
    }
  }

  // ---------------------------------------------------------------------
  // Commands

  function GenerateSerialCommand(now: int): Action<DeviceBody>
  {
    SendCommand(GenNewId, NoFields(), now)
  }

  function AddSlotCommand(now: int): Action<DeviceBody>
  {
    SendCommand(GenNewSlot, NoFields(), now)
  }

  function IssueFirstIdentityCommand(selected: string, now: int): Action<DeviceBody>
  {
    SendCommand(EnrollType, Command(None, Some(selected), None), now)
  }

  function RenewIdentityCommand(selected: string, now: int): Action<DeviceBody>
  {
    SendCommand(ReenrollType, Command(None, Some(selected), None), now)
  }

  /** The MQTT button: a disconnection when the device says it is connected,
      otherwise a connection for the selected slot and integration. */
  function MqttToggleCommand(d: DeviceView, selected: string, integration: string, now: int): (a: Action<DeviceBody>)
    ensures d.mqttConnected == Some(true) ==> a == SendCommand(MqttDisconnect, NoFields(), now)
    ensures d.mqttConnected != Some(true) ==>
              a == SendCommand(MqttConnect, Command(None, Some(selected), Some(integration)), now)
  {
    if d.mqttConnected == Some(true) then SendCommand(MqttDisconnect, NoFields(), now)
    else SendCommand(MqttConnect, Command(None, Some(selected), Some(integration)), now)
  }

  /** Each button's command reaches the backend as the service call it names,
      on the selected slot. */
  lemma ButtonsReachService(selected: string, now: int)
    ensures DeviceTransport.Dispatch(GenerateSerialCommand(now).value.value) == DeviceTransport.NewId
    ensures DeviceTransport.Dispatch(AddSlotCommand(now).value.value) == DeviceTransport.NewSlot
    ensures DeviceTransport.Dispatch(IssueFirstIdentityCommand(selected, now).value.value)
            == DeviceTransport.EnrollSlot(selected)
    ensures DeviceTransport.Dispatch(RenewIdentityCommand(selected, now).value.value)
            == DeviceTransport.ReenrollSlot(selected)
  {
  }

  /** The service never records a connection, so on every state it reaches,
      and before the first one arrives, the MQTT button asks to connect, and
      the backend connects the selected slot to Azure whatever integration
      was picked. */
  lemma ToggleAlwaysConnects(serial: string, calls: seq<DeviceService.Call>, selected: string,
                             integration: string, now: int)
    ensures var v := BackendView(DeviceService.PerformAll(DeviceService.New(serial), calls).device);
            var a := MqttToggleCommand(v, selected, integration, now);
            a.value.value.msgType == MqttConnect &&
            DeviceTransport.Dispatch(a.value.value) == DeviceTransport.ConnectProvider(Azure, selected)
    ensures DeviceTransport.Dispatch(MqttToggleCommand(Initial().device, selected, integration, now).value.value)
            == DeviceTransport.ConnectProvider(Azure, selected)
  {
    BackendViewSlots(serial, calls);
  }
}
