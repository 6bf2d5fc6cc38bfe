# Lamassu simulation tools, modelled in Dafny

Lamassu's simulation tools are two small programs used to exercise a Lamassu
PKI without real hardware. Each is a Go backend with a React/Redux console
that talks to it over one websocket.

- **Virtual device.** The backend holds one simulated IoT device. It has a
  serial number, a list of identity *slots* (each with a status, a key and a
  certificate), random telemetry on a cron schedule, and an MQTT toggle. The
  console shows the selected slot's badge and a live expiration countdown. Its
  buttons generate a serial number, add a slot, enroll or re-enroll a slot, and
  connect to a cloud provider.
- **Virtual DMS.** The backend is a Device Manufacturing System. It is
  registered with the PKI (`CFG`, then a cron job that polls approval) and
  configured from the console: selected CA, automatic enrollment and automatic
  certificate transfer. Its `/enroll` endpoint walks a device's request through
  `STEP_1` to `STEP_4`. Each step is pushed to the console, and the two
  authorization steps wait for the operator unless automation is on. The
  console keeps the connection state and a log, the last process record, and
  the DMS profile with its identities sorted newest first. A middleware queues
  sends made while the socket is not open.

The model has two styles:

- Pure logic (serializers, reducers, the sagas, the page's derived values)
  is written as datatypes, functions and lemmas.
- The stateful parts are classes whose `Model()` is a value, with methods
  ensuring `Model() == F(old(Model()), …)` for a step function `F`. These are:
  - the device service and its store;
  - the websocket handlers of both backends;
  - the DMS singleton;
  - the socket middleware;
  - the device page's expiration timer;
  - the DMS page's CA selection.

  The properties are lemmas about `F`: invariants preserved over any run,
  FIFO order, end-to-end runs of one enrollment, and round trips between a
  backend's serializer and the console reducer that reads it.

Some inputs are parameters: clocks (`now`, in milliseconds or nanoseconds as
the source uses), random values (UUIDs, keys, telemetry readings), and the
outcomes of calls into the PKI and MQTT libraries.

Where the system's documentation and its code differ, the model follows the
code:

- **CA selection echo.** The DMS console may re-send
  `CFG_SELECTED_CA_FOR_ENROLLMENT`. This happens when a `DMS_UPDATE` carrying a
  different CA arrives after a pick: the effect on `dmsState` resets the local
  selection and the effect on the selection re-sends it. The documentation says
  the echo never causes another send. `DmsApp.EchoSettles` proves that the
  matching echo sends nothing. `DmsApp.PushAfterPickReverts` shows the
  differing push being sent back.
- **Countdown units.** The device countdown changes unit on strict `>`
  comparisons (more than 60 seconds, more than 60 minutes, more than 24
  hours). The documentation states them with `>=`.
- **Empty CA on mount.** Mounting the DMS page sends
  `CFG_SELECTED_CA_FOR_ENROLLMENT` with the CA the slice holds. That CA is the
  empty string before the first `DMS_UPDATE`. The backend ignores it, so
  nothing is answered (`DmsServer.SelectedCAAnswered`).

Panics follow Go. `net/http` recovers a panic in a handler, so a panic ends
that handler, keeps whatever it had already changed, and closes nothing. A
panicking `/enroll` handler stops waiting. A panic in a console message
handler ends that backend's read loop (`DmsServer.ReadTurn`,
`DeviceTransport.HandleAll`). The connection stays stored, so pushes still go
out, but nothing the console sends is read again until it reconnects
(`DmsServer.EndedLoopIgnoresMessages`).

## Model

| member | source | states |
|---|---|---|
| ArrowSeparator.LabelColor | virtual-dms/ui/src/components/ArrowSeparator/index.tsx:26-31 | a label is green when loaded, orange when loading with the warning flag, white otherwise |
| ArrowSeparator.ArrowAnimation | virtual-dms/ui/src/components/ArrowSeparator/index.tsx:41-50 | the arrow blinks exactly when its label is loading |
| Decimal.DigitChar | virtual-device/backend/pkg/service/device_service.go:109 | each digit value has a digit character that reads back as that value |
| Decimal.NatToString | virtual-device/backend/pkg/service/device_service.go:109 | `strconv.Itoa` of a natural number is non-empty, all digits, with no leading zero |
| Decimal.ParseDecimal | virtual-device/backend/pkg/model/serialized_device.go:53 | strict decimal text is never empty |
| Decimal.NatToStringValue | virtual-device/backend/pkg/service/device_service.go:109 | the digits written for n have the value n |
| Decimal.ItoaRoundTrip | virtual-device/backend/pkg/model/serialized_device.go:53 | reading back what `strconv.Itoa` wrote gives the same integer, negatives included |
| Decimal.ItoaInjective | virtual-device/backend/pkg/service/device_service.go:109 | distinct integers get distinct decimal text |
| GoTime.UnixMilli | virtual-dms/backend/main.go:194 | `UnixMilli` is the whole number of milliseconds, rounded down |
| GoTime.UnixSeconds | virtual-device/backend/pkg/model/serialized_device.go:53 | `Unix` is the whole number of seconds, rounded down |
| GoTime.DurationSeconds | virtual-dms/backend/main.go:199 | `int(d.Seconds())` truncates toward zero for either sign |
| JsNumbers.TrimStart | virtual-dms/ui/src/ducks/features/enrollProcesor/reducer.ts:40 | `parseInt` skips a leading white-space run: every character it drops is white space, and the rest is a suffix not starting with white space |
| JsNumbers.DigitPrefix | virtual-dms/ui/src/ducks/features/enrollProcesor/reducer.ts:40 | `parseInt` reads the longest prefix of radix digits |
| JsNumbers.ParseIntOf | virtual-dms/ui/src/ducks/features/enrollProcesor/reducer.ts:40 | `parseInt(undefined)` is NaN |
| JsNumbers.ParseIntOfDigits | virtual-dms/ui/src/ducks/features/enrollProcesor/reducer.ts:40 | `parseInt` of a digit string without a `0x` prefix is its value |
| JsNumbers.ParseIntOfDecimal | virtual-dms/ui/src/ducks/features/enrollProcesor/reducer.ts:40 | `parseInt` reads back the decimal text of every natural number |
| JsNumbers.RoundDiv | virtual-device/ui/src/App.tsx:107-119 | `Math.round(n/d)` is within half a unit of the quotient, ties rounding up |
| JsNumbers.RoundDivUnique | virtual-device/ui/src/App.tsx:107-119 | no other integer is that close, so the rounding is determined |
| JsNumbers.NumberOfDecimal | virtual-device/ui/src/ducks/features/deviceManager/reducer.ts:76 | coercing strict decimal text gives its integer value |
| JsStrings.Split | virtual-dms/ui/src/ducks/features/enrollProcesor/reducer.ts:37 | `split` gives at least one piece, none containing the separator |
| JsStrings.At | virtual-dms/ui/src/ducks/features/enrollProcesor/reducer.ts:40 | indexing past the end gives `undefined`, otherwise the element |
| JsStrings.JoinSplit | virtual-dms/ui/src/ducks/features/enrollProcesor/reducer.ts:37 | joining the pieces of a split gives the string back |
| JsStrings.SplitJoin | virtual-dms/ui/src/ducks/features/enrollProcesor/reducer.ts:37 | splitting a join of separator-free pieces gives the pieces back |
| Redux.SendCommand | virtual-dms/ui/src/App.tsx:82-90 | a button's dispatch is a `WS_SEND_MESSAGE` carrying the command type and body |
| DeviceModel.SlotStatusNamesDistinct | virtual-device/backend/pkg/model/device.go:9-18 | the slot status names are pairwise distinct |
| SerializedDevice.SerializeTelemetry | virtual-device/backend/pkg/model/serialized_device.go:16-22 | the three readings are copied unchanged |
| SerializedDevice.SerializeSlot | virtual-device/backend/pkg/model/serialized_device.go:34-55 | every field is copied; the certificate is always the placeholder; the key is empty exactly when absent; the expiration is the Unix second as decimal text |
| SerializedDevice.SerializedDeviceOf | virtual-device/backend/pkg/model/serialized_device.go:68-84 | status name, serial, model, telemetry, rate, MQTT flag and client name, and each slot serialized in place |
| SerializedDevice.SerializeDevice | virtual-device/backend/pkg/model/serialized_device.go:68-84 | the loop filling the slot slice computes exactly the value above |
| DeviceService.EmptySlot | virtual-device/backend/pkg/service/device_service.go:108-115 | a new slot needs provisioning and holds no key, certificate, serial or CA |
| DeviceService.Store | virtual-device/backend/pkg/service/store/store.go:24-27 | the store keeps the state and appends exactly it to the notifications; nothing else changes |
| DeviceService.UpdateInterval | virtual-device/backend/pkg/service/device_service.go:352-366 | an accepted interval replaces the telemetry entry with a new one; the device is untouched; the old entry does not survive |
| DeviceService.UpdateIntervalLeavesOneJob | virtual-device/backend/pkg/service/device_service.go:352-366 | after an update at most one telemetry entry is live; an accepted step runs as the only entry; a rejected one leaves none |
| DeviceService.TakeReading | virtual-device/backend/pkg/service/device_service.go:339-350 | the readings are replaced, within `Intn`'s ranges, and the device is stored |
| DeviceService.FreshDevice | virtual-device/backend/pkg/service/device_service.go:79-103 | a reset device is `EMPTY`, has the new serial and one empty `default` slot, the default rate, no MQTT and zero readings |
| DeviceService.Reset | virtual-device/backend/pkg/service/device_service.go:79-103 | the reset device is stored and notified, with a new telemetry entry |
| DeviceService.New | virtual-device/backend/pkg/service/device_service.go:59-77 | a new service holds a fresh device, notified once, with telemetry entry 1 at the default rate |
| DeviceService.AddSlot | virtual-device/backend/pkg/service/device_service.go:105-118 | one empty slot named after the slot count is appended; nothing else changes; the device is notified |
| DeviceService.IndexOf | virtual-device/backend/pkg/service/device_service.go:121-125 | the index of the first slot with the identifier, or -1 exactly when there is none |
| DeviceService.GeneratedIdsDistinct | virtual-device/backend/pkg/service/device_service.go:105-118 | identifiers made by a reset and slot generation are pairwise distinct |
| DeviceService.GenerateNewSlotKeepsIds | virtual-device/backend/pkg/service/device_service.go:105-118 | generating a slot keeps the identifiers as generated |
| DeviceService.CommonName | virtual-device/backend/pkg/service/device_service.go:139-142 | the `default` slot uses the serial alone; any other slot uses `id:serial` |
| DeviceService.PendingSlot | virtual-device/backend/pkg/service/device_service.go:128-137 | while its request is out the slot is pending, with the new key and no certificate |
| DeviceService.EnrollSlot | virtual-device/backend/pkg/service/device_service.go:120-221 | an unknown slot is an error and changes nothing; otherwise the slot goes pending, then provisioned with the issued certificate or left pending with the error |
| DeviceService.ReenrollSlot | virtual-device/backend/pkg/service/device_service.go:223-260 | an unknown slot is an error and changes nothing; otherwise the slot goes underway, then provisioned or left underway with the error; never a panic |
| DeviceService.ConnectSlot | virtual-device/backend/pkg/service/device_service.go:262-333 | connecting changes no state; it succeeds exactly when the slot exists and the connection does |
| DeviceService.NewValid | virtual-device/backend/pkg/service/device_service.go:59-77 | a new service is valid |
| DeviceService.PerformValid | virtual-device/backend/pkg/service/device_service.go:79-366 | every service call keeps the service valid |
| DeviceService.EnrollKeepsValid | virtual-device/backend/pkg/service/device_service.go:120-221 | enrollment keeps the service valid |
| DeviceService.ReenrollKeepsValid | virtual-device/backend/pkg/service/device_service.go:223-260 | re-enrollment keeps the service valid |
| DeviceService.PerformAllValid | virtual-device/backend/pkg/service/device_service.go:79-366 | any sequence of calls keeps the service valid |
| DeviceService.SlotIdsStayDistinct | virtual-device/backend/pkg/service/device_service.go:105-118 | from a new service, slot identifiers stay pairwise distinct whatever the calls |
| DeviceService.DeviceServiceImpl.constructor | virtual-device/backend/pkg/service/device_service.go:59-77 | the service starts as `New` |
| DeviceService.DeviceServiceImpl.SetDeviceState | virtual-device/backend/pkg/service/store/store.go:24-27 | the new state is `Store` of the old |
| DeviceService.DeviceServiceImpl.UpdateGetSensorDataInterval | virtual-device/backend/pkg/service/device_service.go:352-366 | the new state is `UpdateInterval` of the old |
| DeviceService.DeviceServiceImpl.ResetDeviceState | virtual-device/backend/pkg/service/device_service.go:79-103 | the new state is `Reset` of the old |
| DeviceService.DeviceServiceImpl.GenerateNewSlot | virtual-device/backend/pkg/service/device_service.go:105-118 | the new state is `AddSlot` of the old |
| DeviceService.DeviceServiceImpl.GetSensorData | virtual-device/backend/pkg/service/device_service.go:339-350 | the new state is `TakeReading` of the old |
| DeviceService.DeviceServiceImpl.Enroll | virtual-device/backend/pkg/service/device_service.go:120-221 | state, error and panic are those of `EnrollSlot` |
| DeviceService.DeviceServiceImpl.Reenroll | virtual-device/backend/pkg/service/device_service.go:223-260 | state and error are those of `ReenrollSlot` |
| DeviceService.DeviceServiceImpl.ConnectCloudProvider | virtual-device/backend/pkg/service/device_service.go:262-333 | the error is that of `ConnectSlot`; the state is untouched |
| DeviceTransport.Dispatch | virtual-device/backend/pkg/transport/websocket.go:57-112 | each command type maps to its service call with Go-style decoded fields; `MQTT_CONNECT` always asks for Azure; exactly the unknown types ask for nothing |
| DeviceTransport.ProviderIgnored | virtual-device/backend/pkg/transport/websocket.go:105-111 | the provider the console sends makes no difference |
| DeviceTransport.CallOf | virtual-device/backend/pkg/transport/websocket.go:64-111 | exactly the unknown types make no call |
| DeviceTransport.HandleQuietCases | virtual-device/backend/pkg/transport/websocket.go:64-111 | unknown types, `MQTT_DISCONNECT` among them, change nothing; a rate change or a connection leaves the device and its notifications alone |
| DeviceTransport.HandleAllValid | virtual-device/backend/pkg/transport/websocket.go:123-137 | any sequence of console messages, up to a panic, keeps the service valid |
| DeviceTransport.Handle | virtual-device/backend/pkg/transport/websocket.go:57-112 | exactly an enrollment of an existing slot whose certificate has no PEM block panics |
| DeviceTransport.HandleAllAppend | virtual-device/backend/pkg/transport/websocket.go:123-137 | reading more messages continues from where the loop stood, and changes nothing once a handler has panicked |
| DeviceTransport.StateMessage | virtual-device/backend/pkg/transport/websocket.go:40-48 | a stored state goes out as `DEVICE_STATE_UPDATE` with its serialization |
| DeviceTransport.StateMessages | virtual-device/backend/pkg/transport/websocket.go:40-48 | one message per stored state, in order |
| DeviceTransport.Publish | virtual-device/backend/pkg/transport/websocket.go:151-167 | written when a connection exists, dropped otherwise |
| DeviceTransport.PublishAllWrites | virtual-device/backend/pkg/transport/websocket.go:151-167 | before a connection every message is lost; after one, every message is written, in order |
| DeviceTransport.WebsocketHandler.constructor | virtual-device/backend/pkg/transport/websocket.go:31-55 | no connection and nothing written |
| DeviceTransport.WebsocketHandler.Upgrade | virtual-device/backend/pkg/transport/websocket.go:114-139 | after an upgrade a connection exists; nothing is written |
| DeviceTransport.WebsocketHandler.PublishToWebsocket | virtual-device/backend/pkg/transport/websocket.go:151-167 | the new state is `Publish` of the old |
| DeviceTransport.WebsocketHandler.ForwardDeviceUpdates | virtual-device/backend/pkg/transport/websocket.go:40-48 | the forwarding loop publishes every stored state's message in order |
| DeviceTransport.WebsocketHandler.MessageHandler | virtual-device/backend/pkg/transport/websocket.go:57-112 | the service's new state and the panic are those of `Handle` |
| DeviceTransport.WebsocketHandler.ReadMessage | virtual-device/backend/pkg/transport/websocket.go:123-137 | a running loop handles the message and stops reading exactly when the handler panicked; an ended loop changes nothing; the connection is untouched |
| DeviceTransport.WebsocketHandler.MainRoute | virtual-device/backend/pkg/transport/websocket.go:114-139 | after the upgrade the connection is stored, the service is `HandleAll` of the messages, and the loop still reads exactly when no handler panicked |
| DeviceSagas.Route | virtual-device/ui/src/ducks/sagas.ts:6-23 | a `WS_MESSAGE` is re-dispatched under its type exactly when that is one of the three device action names |
| DeviceSagas.BackendPushRouted | virtual-device/ui/src/ducks/sagas.ts:12-22 | a backend push reaches the reducer as `DEVICE_UPDATED` exactly when that action's name is `DEVICE_STATE_UPDATE` |
| DeviceManagerReducer.Initial | virtual-device/ui/src/ducks/features/deviceManager/reducer.ts:42-55 | placeholders, no slots, an empty log |
| DeviceManagerReducer.MomentUnixMillis | virtual-device/ui/src/ducks/features/deviceManager/reducer.ts:76 | `moment.unix` of decimal seconds is that many thousand milliseconds |
| DeviceManagerReducer.SlotViewOf | virtual-device/ui/src/ducks/features/deviceManager/reducer.ts:68-78 | each slot field is copied; the expiration is the `moment` of its seconds |
| DeviceManagerReducer.DeviceViewOf | virtual-device/ui/src/ducks/features/deviceManager/reducer.ts:61-85 | the device fields are copied and the slots are mapped one for one, in order |
| DeviceManagerReducer.AppendLog | virtual-device/ui/src/ducks/features/deviceManager/reducer.ts:86-92 | the new entry is first, followed by the first twenty old ones |
| DeviceManagerReducer.Reduce | virtual-device/ui/src/ducks/features/deviceManager/reducer.ts:57-97 | `DEVICE_UPDATED` replaces device and telemetry and keeps the log; `MQTT_LOG` prepends its entry; anything else keeps the state |
| DeviceManagerReducer.LogStaysBounded | virtual-device/ui/src/ducks/features/deviceManager/reducer.ts:86-92 | the log never holds more than twenty-one entries |
| DeviceManagerReducer.LogIsMostRecent | virtual-device/ui/src/ducks/features/deviceManager/reducer.ts:86-92 | from empty, the log is exactly the twenty-one most recent entries, newest first |
| DeviceManagerReducer.ShowsServerDevice | virtual-device/ui/src/ducks/features/deviceManager/reducer.ts:61-85 | a serialized backend state is shown field for field: status name, MQTT flag, each slot's id, status, key presence and expiration millisecond, and the telemetry; the log is kept |
| DeviceApp.FilteredSlots | virtual-device/ui/src/App.tsx:61 | the filter keeps exactly the slots carrying the selected identifier |
| DeviceApp.FilterCounts | virtual-device/ui/src/App.tsx:61 | a matching slot is kept as often as it occurs, any other dropped |
| DeviceApp.FilterKeepsOrder | virtual-device/ui/src/App.tsx:61 | filtering a concatenation concatenates the filtered parts, so order is kept |
| DeviceApp.BackendSelection | virtual-device/ui/src/App.tsx:61-63 | with unique identifiers, the slot shown for a backend state is the one carrying the identifier, with its status's name |
| DeviceApp.StatusNameTests | virtual-device/ui/src/App.tsx:63-97 | each status name the page tests for picks out exactly one status |
| DeviceApp.SelectedSlot | virtual-device/ui/src/App.tsx:63-97 | a slot is shown exactly when the filter finds one; it carries the identifier |
| DeviceApp.FilterFindsNone | virtual-device/ui/src/App.tsx:61 | with no slot carrying the identifier the filter is empty |
| DeviceApp.FilterFindsUnique | virtual-device/ui/src/App.tsx:61 | with distinct identifiers the filter finds exactly the carrying slot |
| DeviceApp.SelectionOfUniqueIds | virtual-device/ui/src/App.tsx:61-97 | with distinct identifiers a slot is shown exactly when one carries the identifier, and it is that one |
| DeviceApp.BackendViewSlots | virtual-device/ui/src/ducks/features/deviceManager/reducer.ts:68-78 | the view of a reachable state has the service's slots in order, with distinct identifiers |
| DeviceApp.GatesOfView | virtual-device/ui/src/App.tsx:235-261 | "Issue First Identity" is enabled exactly for a shown slot needing provisioning; "Renew Identity" exactly for a provisioned one or one needing re-enrollment; never both |
| DeviceApp.GatesOnServiceStates | virtual-device/ui/src/App.tsx:220-261 | on every reachable state "Add New Slot" is disabled, and the two identity buttons follow the slot's status |
| DeviceApp.StuckSlotsOfferNoCommand | virtual-device/ui/src/App.tsx:235-261 | a slot left pending or underway enables neither identity button |
| DeviceApp.BadgeOfBackendSlot | virtual-device/ui/src/App.tsx:63-97 | a backend slot is green exactly when provisioned, red exactly when expired, shows the check exactly when provisioned, and the corrected badge shows progress dots exactly while an enrollment or a renewal is under way |
| DeviceApp.BadgeWithoutSlot | virtual-device/ui/src/App.tsx:63-97 | with no slot shown the badge is red with a cross |
| DeviceApp.RenewalProgressNotShown | virtual-device/ui/src/App.tsx:284 | as written, a renewal under way shows an exclamation instead of progress |
| DeviceApp.CountdownOf | virtual-device/ui/src/App.tsx:105-119 | the unit is seconds up to a minute, minutes up to an hour, hours up to a day, then days (strict thresholds); the amount is the nearest number of that unit |
| DeviceApp.PastIsSeconds | virtual-device/ui/src/App.tsx:105-119 | an expiration already past counts in non-positive seconds |
| DeviceApp.AmountIsNearest | virtual-device/ui/src/App.tsx:105-119 | no other amount is as close |
| DeviceApp.AmountWithinUnit | virtual-device/ui/src/App.tsx:105-119 | the amounts stay within their unit: 1-60 minutes, 1-24 hours, at least one day |
| DeviceApp.UnitMonotone | virtual-device/ui/src/App.tsx:105-119 | a later expiration never counts in a smaller unit |
| DeviceApp.TickText | virtual-device/ui/src/App.tsx:100-124 | a tick rewrites the text only when exactly one slot with a positive expiration was captured |
| DeviceApp.Restart | virtual-device/ui/src/App.tsx:129-134 | a new `deviceState` clears the running interval, starts a new one and captures the current filter |
| DeviceApp.RunTimerValid | virtual-device/ui/src/App.tsx:99-134 | at most one interval is ever live, and it is the recorded one |
| DeviceApp.TickLagsSelection | virtual-device/ui/src/App.tsx:99-134 | a slot click does not restart the interval, so the next tick still counts down the previously captured slot |
| DeviceApp.ExpirationTimer.constructor | virtual-device/ui/src/App.tsx:37-40 | the `default` slot, no interval, empty text |
| DeviceApp.ExpirationTimer.DeviceStateChanged | virtual-device/ui/src/App.tsx:129-134 | the new state applies the device change |
| DeviceApp.ExpirationTimer.SelectSlot | virtual-device/ui/src/App.tsx:336-339 | the new state applies the click |
| DeviceApp.ExpirationTimer.OnTick | virtual-device/ui/src/App.tsx:100-124 | the new state applies the tick |
| DeviceApp.MqttToggleCommand | virtual-device/ui/src/App.tsx:395-417 | disconnect when the device reports connected; otherwise connect with the selected slot and integration |
| DeviceApp.ButtonsReachService | virtual-device/ui/src/App.tsx:203-261 | each button's command reaches the backend as the service call it names |
| DeviceApp.ToggleAlwaysConnects | virtual-device/ui/src/App.tsx:395-417 | the service never records a connection, so on every reachable state the toggle asks to connect |
| DmsModel.SerializeDms | virtual-dms/backend/main.go:60-74 | a nil CA list is written as empty; status name, name, selected CA and both automation flags are copied |
| DmsModel.SerializeDmsForgets | virtual-dms/backend/main.go:60-74 | states differing only in what the message omits serialize the same |
| DmsModel.SubjectGuardAgreement | virtual-dms/backend/main.go:132-133 | as written, the subject line is the intended one exactly when Country and OU are both present or both absent |
| DmsModel.OuGuardPanics | virtual-dms/backend/main.go:132-133 | a subject with a Country and no OU panics as written; the corrected line is `C=ES/CN=dev` |
| DmsModel.DeviceSubjectAgrees | virtual-dms/backend/main.go:117-172 | the virtual device's subject has every attribute, so both versions give its full line |
| DmsModel.SerializeEnrollment | virtual-dms/backend/main.go:117-172 | the request and the certificate are empty exactly when absent; the status name is copied |
| DmsModel.SerializeEnrollmentAsWritten | virtual-dms/backend/main.go:117-172 | as written, `Serialize` panics exactly when the CSR's or the certificate's subject has a country and no OU; otherwise it agrees with the corrected record on every field but the two subject lines, which are empty exactly when absent |
| DmsModel.SerializeEnrollmentAgreement | virtual-dms/backend/main.go:117-172 | when neither subject mixes Country and OU, the as-written serializer agrees with the corrected one |
| DmsModel.SerializeIdentityExact | virtual-dms/backend/main.go:192-201 | whole milliseconds and whole seconds are reported exactly |
| DmsModel.SerializeIdentities | virtual-dms/backend/main.go:683-695 | the loop serializes each identity in place |
| DmsServer.Send | virtual-dms/backend/main.go:506-523 | written when a console is connected, dropped otherwise; nothing else changes |
| DmsServer.SerializedIdentities | virtual-dms/backend/main.go:683-695 | one serialized entry per identity, in order |
| DmsServer.Register | virtual-dms/backend/main.go:254-406 | registration panics exactly on a key that is not PEM; a failure changes nothing but the messages; a success resets the state, schedules one approval job and echoes the configuration |
| DmsServer.HandleMessage | virtual-dms/backend/main.go:243-504 | only `CFG` can panic; no message touches the route, the identities, the connection or the read loop |
| DmsServer.SelectedCAAnswered | virtual-dms/backend/main.go:408-436 | an empty CA changes nothing and sends nothing; any other CA is stored and echoed |
| DmsServer.ConfigurationEchoed | virtual-dms/backend/main.go:245-252 | `GET_CFG` echoes the configuration; each automation switch stores its flag and echoes |
| DmsServer.AuthorizationsSetFlag | virtual-dms/backend/main.go:494-502 | each authorization sets its own flag, only while a process exists, and sends nothing |
| DmsServer.UnknownMessageIgnored | virtual-dms/backend/main.go:243-504 | a message of any other type changes nothing |
| DmsServer.RegistrationsAccumulateJobs | virtual-dms/backend/main.go:352-387 | every successful registration adds an approval job; none is removed |
| DmsServer.ApprovalCheck | virtual-dms/backend/main.go:352-387 | no job, or not yet approved, changes nothing; a failed lookup only reports; approval makes the DMS idle, stores the CAs and the certificate, and with no CA selected picks the first |
| DmsServer.NewProcess | virtual-dms/backend/main.go:535-547 | a new request is authorized only as far as the automation flags go, with the selected CA, no status, no CSR and no certificate |
| DmsServer.PushProcess | virtual-dms/backend/main.go:117-170 | pushing the process panics exactly when `Serialize` does, and then writes nothing; otherwise its record is sent |
| DmsServer.EnrollRequest | virtual-dms/backend/main.go:526-606 | the handler panics exactly on bytes with no PEM block, or on a parsed CSR whose subject has a country and no OU; the DMS is idle after an unreadable body, bad base64 or bytes that are no CSR, enrolling otherwise; the process holds the body's fields, the CA, the date and the automation flags, reaching `STEP_1` unless the PEM block is missing; without a panic it is pushed and the handler waits |
| DmsServer.RequestStart | virtual-dms/backend/main.go:533-589 | before the PEM block is read, the process is the new one with the body's fields and date, and only the DMS status, the process and the route change |
| DmsServer.ReachStep1 | virtual-dms/backend/main.go:591-600 | the process takes the CSR and `STEP_1`; the push panics exactly on a subject with a country and no OU, and otherwise is sent and the handler waits for the enrollment authorization |
| DmsServer.BadBase64PrefixStillEnrolls | virtual-dms/backend/main.go:576-600 | a CSR text that is not valid base64 but whose decoded prefix holds a CSR still reaches `STEP_1` with its subject, is pushed and waits, while the DMS shows `IDLE` |
| DmsServer.AfterEnrollAuth | virtual-dms/backend/main.go:601-656 | without a waiting, authorized process nothing happens; a failed EST step makes the DMS idle and ends the handler, panicking only for a missing client; an issued certificate is stored with its serial text and expiration after `STEP_2` and `STEP_3` are pushed, a panic in either push ending the handler there |
| DmsServer.Issued | virtual-dms/backend/main.go:635-656 | `STEP_2` is pushed, then the certificate, serial text and expiration are recorded and `STEP_3` pushed; the panic happens exactly when the process or the certificate subject has a country and no OU, and otherwise the handler waits for the transfer |
| DmsServer.NewIdentity | virtual-dms/backend/main.go:674-681 | the identity is enrolled at the request date for the device and CA, valid for the certificate's period |
| DmsServer.AfterTransferAuth | virtual-dms/backend/main.go:658-695 | without a waiting, authorized process holding a certificate nothing happens; otherwise the process reaches `STEP_4` and the handler ends; if its push panics nothing is sent and no identity added, else `STEP_4` is pushed, the identity appended and the list pushed |
| DmsServer.StepValid | virtual-dms/backend/main.go:243-742 | every event keeps the server valid |
| DmsServer.MessageValid | virtual-dms/backend/main.go:716-742 | every turn of the read loop keeps the server valid |
| DmsServer.RunValid | virtual-dms/backend/main.go:243-742 | every reachable state is valid |
| DmsServer.IdentitiesOnlyGrow | virtual-dms/backend/main.go:674-695 | identities are only ever appended |
| DmsServer.ReadTurn | virtual-dms/backend/main.go:716-742 | an ended loop ignores the message; a running one handles it and ends exactly when the handler panicked, keeping the state the handler left |
| DmsServer.WithoutMessages | virtual-dms/backend/main.go:716-742 | the events of a run without its console messages |
| DmsServer.EndedLoopIgnoresMessages | virtual-dms/backend/main.go:716-742 | once the loop has ended, until a console connects again, it stays ended and the run is the run without the console messages |
| DmsServer.KeyNotPemEndsReading | virtual-dms/backend/main.go:254-406 | a registration with a key that is not PEM ends the read loop, keeps the connection and the DMS state, and later messages change nothing |
| DmsServer.EnrollmentReachesStep3 | virtual-dms/backend/main.go:526-656 | with neither subject having a country without an OU, a request authorized by hand is pushed at `STEP_1`, `STEP_2` and `STEP_3` in order (with the intended request line when the CSR guards agree) and waits for the transfer, holding the certificate, the device's fields, the selected CA and the date; the loop still reads |
| DmsServer.RequestReachesStep1 | virtual-dms/backend/main.go:526-600 | a well-formed request reaches `STEP_1`, is pushed once and waits, with the DMS enrolling |
| DmsServer.CertificateReachesStep3 | virtual-dms/backend/main.go:635-656 | an issued certificate brings a waiting process to `STEP_3`, pushing `STEP_2` then `STEP_3` |
| DmsServer.EnrollStuckAtStep1 | virtual-dms/backend/main.go:132-153 | as written, the subject `C=ES`, `CN=dev` makes the `STEP_1` push panic: the process stays at `STEP_1`, the DMS `ENROLLING`, nothing is sent, and authorizing the enrollment changes nothing but the flag |
| DmsServer.FullEnrollment | virtual-dms/backend/main.go:526-714 | with neither subject having a country without an OU, a connected console following one enrollment authorized by hand sees `STEP_1` to `STEP_4` pushed in order, then the identity list; the new identity is appended and the DMS stays `ENROLLING` |
| DmsServer.TransferCompletes | virtual-dms/backend/main.go:658-695 | once the transfer of a serializable process is authorized by hand, `STEP_4` and then the identity list are pushed, the identity is appended, the DMS state is untouched and the handler ends |
| DmsServer.ApprovalInterruptsEnrolling | virtual-dms/backend/main.go:371-384 | an approval answer during an enrollment shows the DMS as `IDLE` while the handler still waits |
| DmsServer.Singleton.constructor | virtual-dms/backend/main.go:799-807 | an `EMPTY` DMS, no identities, no console |
| DmsServer.Singleton.SendWebSocketMessage | virtual-dms/backend/main.go:506-523 | the new state is `Send` of the old |
| DmsServer.Singleton.Connect | virtual-dms/backend/main.go:716-724 | the new state is that of a connection event: connected, with the loop reading |
| DmsServer.Singleton.Disconnect | virtual-dms/backend/main.go:727-731 | the new state is that of a read error: a running loop clears the connection and ends |
| DmsServer.Singleton.ReadMessage | virtual-dms/backend/main.go:726-741 | the new state is that of one turn of the read loop |
| DmsServer.Singleton.MessageHandler | virtual-dms/backend/main.go:243-504 | state and panic are those of `HandleMessage` |
| DmsServer.Singleton.Configure | virtual-dms/backend/main.go:254-406 | state and panic are those of `Register` |
| DmsServer.Singleton.UpdateDms | virtual-dms/backend/main.go:438-492 | the DMS state is replaced and pushed |
| DmsServer.Singleton.ApprovalTick | virtual-dms/backend/main.go:352-387 | the new state is `ApprovalCheck` of the old |
| DmsServer.Singleton.SendProcessUpdate | virtual-dms/backend/main.go:117-170 | state and panic are those of `PushProcess` |
| DmsServer.Singleton.StartRequest | virtual-dms/backend/main.go:533-589 | the new state is `RequestStart` of the old |
| DmsServer.Singleton.AtStep1 | virtual-dms/backend/main.go:591-600 | state and panic are those of `ReachStep1` |
| DmsServer.Singleton.EnrollRoute | virtual-dms/backend/main.go:526-606 | state and panic are those of `EnrollRequest` |
| DmsServer.Singleton.ResumeAfterEnrollAuth | virtual-dms/backend/main.go:601-656 | state and panic are those of `AfterEnrollAuth` |
| DmsServer.Singleton.Issue | virtual-dms/backend/main.go:635-656 | state and panic are those of `Issued` |
| DmsServer.Singleton.ResumeAfterTransferAuth | virtual-dms/backend/main.go:658-695 | state and panic are those of `AfterTransferAuth` |
| WebsocketReducer.Reduce | virtual-dms/ui/src/ducks/features/websocket/reducer.ts:21-57 | clear empties the log; connect and disconnect set the state; a send or a receipt prepends an entry with its direction and time; anything else keeps the state |
| WebsocketReducer.LogIsHistory | virtual-dms/ui/src/ducks/features/websocket/reducer.ts:21-57 | the log is exactly the entries since the last clear, newest first |
| WebsocketReducer.LogGrowsWithoutCap | virtual-dms/ui/src/ducks/features/websocket/reducer.ts:25-52 | without a clear each send and receipt adds one entry, with no cap |
| EnrollProcesorReducer.Reduce | virtual-dms/ui/src/ducks/features/enrollProcesor/reducer.ts:32-55 | only an update of the right shape changes the view, and then each of its eleven fields is the message's, the step parsed from the status |
| EnrollProcesorReducer.ReduceForgetsPrevious | virtual-dms/ui/src/ducks/features/enrollProcesor/reducer.ts:36-52 | the view after an update does not depend on the one before |
| EnrollProcesorReducer.StepOfTag | virtual-dms/ui/src/ducks/features/enrollProcesor/reducer.ts:37-40 | `STEP_n` reads back as step n |
| EnrollProcesorReducer.StepOfStatusName | virtual-dms/ui/src/ducks/features/enrollProcesor/reducer.ts:37-40 | every status the backend writes reads back as its step; the empty status reads as NaN |
| EnrollProcesorReducer.ShowsServerRecord | virtual-dms/ui/src/ducks/features/enrollProcesor/reducer.ts:36-52 | after a backend push of a record `Serialize` produced, each of the view's eleven fields holds the record's: the step number (NaN with no status), device, model, slot, date, flags, serial number and expiration; the CSR or certificate text is empty exactly when the record has none, and is the intended subject line when the subject's guards agree |
| DmsReducer.UpdateProfile | virtual-dms/ui/src/ducks/features/dms/reducer.ts:38-46 | a configuration push replaces every profile field and keeps the identities |
| DmsReducer.Swap | virtual-dms/ui/src/ducks/features/dms/reducer.ts:47-50 | exchanging two positions keeps the multiset |
| DmsReducer.SortNewestFirst | virtual-dms/ui/src/ducks/features/dms/reducer.ts:47-50 | the in-place sort leaves the identities newest first, as a permutation of the old ones |
| DmsReducer.Reduce | virtual-dms/ui/src/ducks/features/dms/reducer.ts:34-53 | a configuration push replaces the profile; an identities push replaces the list by a newest-first permutation of it; anything else keeps the state |
| DmsReducer.ShowsServerProfile | virtual-dms/ui/src/ducks/features/dms/reducer.ts:38-46 | a push shows exactly the backend's status name, CA list, selected CA and automation flags |
| DmsStore.Route | virtual-dms/ui/src/ducks/sagas.ts:7-29 | exactly the three routed types are re-dispatched, under their own type, never as `WS_MESSAGE` |
| DmsStore.ReduceRoot | virtual-dms/ui/src/ducks/reducers.ts:12-16 | every slice sees every action |
| DmsStore.Deliver | virtual-dms/ui/src/ducks/sagas.ts:7-29 | a backend message is logged, and it updates the process or the profile according to its type; an identity list is sorted in place, so the logged message holds the sorted list |
| SocketMiddleware.Drained | virtual-dms/ui/src/ducks/features/websocket/socketMiddleware.ts:30-32 | the timer writes one frame per pending payload, in order |
| SocketMiddleware.OnAction | virtual-dms/ui/src/ducks/features/websocket/socketMiddleware.ts:20-49 | a send while not open is queued and starts the timer if none is set; while open it is written at once; a reconnect on a closed socket connects; every action is forwarded; the invariant is kept |
| SocketMiddleware.OnTick | virtual-dms/ui/src/ducks/features/websocket/socketMiddleware.ts:28-37 | with a timer set and the socket open, the queue is written in order and the timer cleared; otherwise nothing happens |
| SocketMiddleware.NeverStranded | virtual-dms/ui/src/ducks/features/websocket/socketMiddleware.ts:17-38 | over any run, a pending message always has exactly one live timer, and there is at most one |
| SocketMiddleware.QueuedFifo | virtual-dms/ui/src/ducks/features/websocket/socketMiddleware.ts:25-38 | the timer's writes followed by the queue are exactly the offline sends in dispatch order |
| SocketMiddleware.OnlineInOrder | virtual-dms/ui/src/ducks/features/websocket/socketMiddleware.ts:39-41 | sends made while open are written in dispatch order |
| SocketMiddleware.AllForwarded | virtual-dms/ui/src/ducks/features/websocket/socketMiddleware.ts:48 | every action reaches the next middleware, unchanged and in order |
| SocketMiddleware.OfflineSendsQueue | virtual-dms/ui/src/ducks/features/websocket/socketMiddleware.ts:25-27 | offline sends are appended to the queue and nothing is written |
| SocketMiddleware.FlushOnOpen | virtual-dms/ui/src/ducks/features/websocket/socketMiddleware.ts:28-37 | the first tick once open writes every queued send, in order, and empties the queue |
| SocketMiddleware.DirectSendOvertakes | virtual-dms/ui/src/ducks/features/websocket/socketMiddleware.ts:24-42 | a send made while open can overtake a message still queued |
| SocketMiddleware.Middleware.constructor | virtual-dms/ui/src/ducks/features/websocket/socketMiddleware.ts:9-18 | connected once, nothing pending, no timer |
| SocketMiddleware.Middleware.Handle | virtual-dms/ui/src/ducks/features/websocket/socketMiddleware.ts:20-49 | the new state is `OnAction` of the old |
| SocketMiddleware.Middleware.Tick | virtual-dms/ui/src/ducks/features/websocket/socketMiddleware.ts:28-37 | the new state is `OnTick` of the old |
| DmsApp.GreenIffReached | virtual-dms/ui/src/App.tsx:321-349 | a step label is green exactly when the process has reached its step number |
| DmsApp.OrangeIffAwaitingOperator | virtual-dms/ui/src/App.tsx:321-349 | a label is orange exactly when its step waits on the operator's authorization |
| DmsApp.OneStageUnderWay | virtual-dms/ui/src/App.tsx:321-349 | at most one arrow blinks, and its label is not green |
| DmsApp.ColorsOfServerRecord | virtual-dms/ui/src/App.tsx:321-349 | after a backend push, exactly the labels up to the record's step are green; a record with no status leaves every label white and no arrow blinking |
| DmsApp.LeftPanel | virtual-dms/ui/src/App.tsx:360 | the request's details show exactly once the step is above zero |
| DmsApp.RightPanel | virtual-dms/ui/src/App.tsx:419-462 | the certificate shows once the step is above two; "no process" exactly at step zero; otherwise "awaiting PKI" |
| DmsApp.PanelsOfNaN | virtual-dms/ui/src/App.tsx:360-462 | the certificate never shows without the request; a NaN step shows no request and "awaiting PKI" |
| DmsApp.StatusBadgeOf | virtual-dms/ui/src/App.tsx:113-127 | the check-mark icon shows exactly when the status is `IDLE` |
| DmsApp.TransferAfterAuthorize | virtual-dms/ui/src/App.tsx:387-454 | with manual enrollment, a visible Transfer button implies a visible Authorize button |
| DmsApp.RegisterCommand | virtual-dms/ui/src/App.tsx:211-224 | the Register button sends `CFG` carrying the DMS name |
| DmsApp.AuthorizeCommand | virtual-dms/ui/src/App.tsx:387-403 | the Authorize button sends `AUTH_ENROLL` with an empty body |
| DmsApp.TransferCommand | virtual-dms/ui/src/App.tsx:438-454 | the Transfer button sends `AUTH_TRANSFER` with an empty body |
| DmsApp.ManualEnrollApproval | virtual-dms/ui/src/App.tsx:263-274 | corrected: requiring approval turns automatic enrollment off |
| DmsApp.ManualTransferApproval | virtual-dms/ui/src/App.tsx:282-293 | corrected: requiring approval turns automatic transfer off |
| DmsApp.ManualApprovalSwitchInverted | virtual-dms/ui/src/App.tsx:263-293 | as written, switching "requires manual approval" on turns automation on |
| DmsApp.GetCfgCommand | virtual-dms/ui/src/App.tsx:82-90 | the mount effect sends `GET_CFG` |
| DmsApp.SelectCACommand | virtual-dms/ui/src/App.tsx:92-105 | the selection effect sends `CFG_SELECTED_CA_FOR_ENROLLMENT` carrying the CA |
| DmsApp.Select | virtual-dms/ui/src/App.tsx:92-111 | setting the selection sends it exactly when it changes |
| DmsApp.Mounted | virtual-dms/ui/src/App.tsx:62-111 | the first render sends `GET_CFG`, then the slice's CA |
| DmsApp.MountedCoherent | virtual-dms/ui/src/App.tsx:62-111 | the mounted page is coherent |
| DmsApp.SelectCoherent | virtual-dms/ui/src/App.tsx:92-111 | a selection keeps the page coherent |
| DmsApp.RunCaCoherent | virtual-dms/ui/src/App.tsx:92-111 | whatever pushes and picks follow, no CA is sent twice in a row and the last sent is the local one |
| DmsApp.EchoSettles | virtual-dms/ui/src/App.tsx:92-111 | the backend's echo of a pick sends nothing more |
| DmsApp.PushAfterPickReverts | virtual-dms/ui/src/App.tsx:107-111 | a push of another CA after a pick resets the selection and sends that CA back |
| DmsApp.CaSelection.Mount | virtual-dms/ui/src/App.tsx:62-111 | the component starts as `Mounted` |
| DmsApp.CaSelection.Apply | virtual-dms/ui/src/App.tsx:92-111 | the new state applies the event |

## Left out

- Go's goroutines and concurrent handlers are left out. The model runs events one at a time, so it does not capture two `/enroll` requests at once sharing the singleton's one process, nor a second console replacing the stored connection while a loop runs. The store's notification goroutine reads `*device` late; the model sends the state as it was stored.
- The Azure MQTT client is left out: its twin subscription and the reenroll callback it installs are foreign code. The AWS branch of `ConnectCloudProvider` is left out too, because the dispatcher always asks for Azure.
- Read errors on the device backend's socket are left out. Its `MainRoute` loop retries after one (`continue`), and gorilla panics after repeated failed reads; the model's loop sees only messages.
- Console messages that `json.Unmarshal` rejects are left out on both backends. Both loops skip them, so the model's read loops receive only parsed messages.
- Errors from CSR creation in `Enroll` are left out. They are ignored in the source, so the model draws the request's outcome instead.
- The certificate's serial text, written with `InsertNth`/`ToHexInt` formatting, is not modelled. It is a string parameter.
- Cron timing is not modelled. The firing schedule is events, and `0/N` with N not dividing 60 is treated like any accepted step.
- The DMS approval job is never removed. The model keeps the number of scheduled jobs, not their timing.
- Dates are left out: `moment`'s formatting, time zones and the countdown's date text. The model keeps the instant.
- DeviceApp.CountdownOf: JavaScript floating-point division is not modelled. The amount is the exact rounding of integer milliseconds, which is what `Math.round` gives for these magnitudes.
- React rendering is left out: the reconnect and clear-messages buttons' layout, log colours and the `InspectMode` panel.
- A reducer that would throw on a message of the wrong shape is not modelled. The model keeps the state unchanged.
- The device console's action-type strings are parameters (`DeviceTags`). The file defining them is not part of this model.
- The DMS console's action types are taken to equal their names.
- The `Error parsing command` paths of JSON marshalling are left out, because they cannot fail on these records.
- The HTTP status and body `enrollRoute` writes back are left out.
- The JSON decoding of the `/enroll` body is a parameter. `EnrollBody` says whether `json.Unmarshal` succeeded and carries the fields it filled, which after a failure may be a partial fill. The base64 and PEM outcomes are parameters too (`CsrOutcome`): a bad base64 text still yields the decoded prefix, which either has no PEM block or holds one.
- Also left out: `spaHandler`, environment and configuration parsing, and the gateway URL.
- DisconnectCloudProvider is empty in the source, so it has no member.
- JsNumbers.NumberOfDecimal: covers only the strict decimal text a Go backend writes. Other strings, with spaces, `0x` or exponents, are not specified.
- DeviceManagerReducer.MomentUnixMillis: states the value only for strict decimal text, for the same reason.

## Findings

| source | as written | input that shows it | evidently intended | confidence | as-written member | corrected member |
|---|---|---|---|---|---|---|
| virtual-dms/backend/main.go:132-153 | the `OU=` part of both subject lines (request and certificate) is guarded by the length of Country, then indexes OU | a CSR with subject `C=ES/CN=dev` panics at the `STEP_1` push, leaving the process stuck at `STEP_1` | guard on the length of OU | not executed | DmsModel.SubjectTextAsWritten, DmsModel.SerializeEnrollmentAsWritten, DmsModel.OuGuardPanics, DmsServer.EnrollStuckAtStep1 | DmsModel.SubjectText, DmsModel.SerializeEnrollment, DmsModel.SubjectGuardAgreement, DmsModel.SerializeEnrollmentAgreement |
| virtual-device/ui/src/App.tsx:284 | the progress dots compare against `PENDING_REENROLLMENT`, a status the backend never writes | a slot in `REENROLLMENT_UNDERWAY` shows an exclamation | compare against `REENROLLMENT_UNDERWAY` | not executed | DeviceApp.BadgeAsWritten, DeviceApp.RenewalProgressNotShown | DeviceApp.Badge, DeviceApp.BadgeOfBackendSlot |
| virtual-dms/ui/src/App.tsx:263-293 | "Requires manual approval" switches send `auto_*: checked` | switching manual approval on sends `auto_enrollment: true` | send the negation of `checked` | not executed | DmsApp.ManualEnrollApprovalAsWritten, DmsApp.ManualApprovalSwitchInverted | DmsApp.ManualEnrollApproval, DmsApp.ManualTransferApproval |

The DMS server keeps the code as written: every push there goes through
`DmsModel.SerializeEnrollmentAsWritten`, so the panic is part of its runs, and
the end-to-end lemmas state the subjects they need. The corrected serializer is
the reference those pushes are compared with. `DmsModel.SerializeEnrollmentAgreement`
proves the two agree whenever Country and OU are both present or both absent.
