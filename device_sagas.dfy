/** The device console's saga: an incoming websocket message whose type is one
    of the three device action names is re-dispatched under that name. */
module DeviceSagas {
  import opened Wrappers
  import opened Redux
  import opened DeviceChannel

  /** The `message` saga on a `WS_MESSAGE`; the `switch` tries the names in
      the order `TELEMETRY_DATA`, `DEVICE_UPDATED`, `MQTT_LOG`. */
  function Route(tags: DeviceTags, a: Action<DeviceBody>): (r: Option<Action<DeviceBody>>)
    ensures r.Some? <==>
              a.actionType == WsMessage && a.value.Some? &&
              a.value.value.msgType in {tags.telemetryData, tags.deviceUpdated, tags.mqttLog}
    ensures r.Some? ==> r.value.actionType == a.value.value.msgType && r.value.value == a.value
  {
    if a.actionType != WsMessage || a.value.None? then None
    else
      var msg := a.value.value;
      if msg.msgType == tags.telemetryData then Some(Action(tags.telemetryData, a.value))
      else if msg.msgType == tags.deviceUpdated then Some(Action(tags.deviceUpdated, a.value))
      else if msg.msgType == tags.mqttLog then Some(Action(tags.mqttLog, a.value))
      else None
  }

  /** The backend's state pushes reach the reducer as `DEVICE_UPDATED` exactly
      when that action's name is the backend's `DEVICE_STATE_UPDATE`. */
  lemma BackendPushRouted(tags: DeviceTags, msg: Envelope<DeviceBody>)
    requires msg.msgType == DeviceStateUpdate
    ensures var r := Route(tags, Action(WsMessage, Some(msg)));
            (r.Some? && r.value == Action(tags.deviceUpdated, Some(msg)))
            <==> tags.deviceUpdated == DeviceStateUpdate
  {
  }
}
