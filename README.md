# useMqtt: the dashboard's message-handling state, in Dafny

The dashboard front-end keeps all of its live data in one React hook,
`useMqtt` (hooks/useMqtt.ts). The hook holds a connection status, the latest
temperature and humidity, a light flag, and three parallel chart series
(time labels, temperatures, humidities). MQTT client events update it:

- `connect` sets the status to "Connected" and subscribes to the status and
  sensor topics.
- `error` sets the status to "Error".
- `message` routes by topic. A status message sets the light flag to
  "payload is `1`". A sensor message whose JSON parses sets both gauges and
  appends to all three series with `[...prev.slice(-5), x]`. Any other
  message, or a sensor payload that fails to parse, changes nothing.
- `toggleLight` publishes `"0"` when the light is on and `"1"` when it is
  off, on the command topic, and only when a client exists. It does not
  touch the local light flag.

The model has five files:

- `config.dfy`: the three topic strings (constants/Config.ts:28-30).
- `wrappers.dfy`: an `Option` type.
- `history.dfy`: the capped history. `Slice` is JavaScript's
  `Array.prototype.slice(start)`. `Append` is `[...prev.slice(-5), x]`.
  `LastN` is an independent reference definition of a sliding window.
- `mqtt.dfy`: `Snapshot` is a value holding all the hook's `useState`
  fields. One pure function per handler (`OnConnected`, `OnErrored`,
  `OnMessage`, `Toggle`) gives the new value. The class `MqttState` holds the
  same fields as mutable state. It updates them one setter at a time, and
  each method is proved to agree with the corresponding function.
  `Consistent` is the invariant every reachable state keeps: the three series
  have equal length, between 1 and 6, and the gauges equal the newest chart
  points.
- `mqtt_properties.dfy`: lemmas about each branch of the dispatcher and
  about the toggle command. It also has lemmas about any sequence of events
  (`Run`): consistency is kept; each series is the sliding window of its
  start followed by the accepted readings; the light flag follows the last
  status message.

`JSON.parse` (with reading `data.temp` and `data.humi`) is a parameter
`parse: string -> Option<Reading>`, where `None` means the parse threw. The
`moment().format('HH:mm:ss')` clock label is a parameter `timeNow`. A
`publish` is returned as a `Publish(topic, payload)` value. The `connect`
handler's subscriptions are returned as a list of topics.

hooks/useMqtt.ts has no optimistic light update, no command timeout and no
persisted series, so the model has none either.
The chart screen (app/(tabs)/index.tsx) falls back to `[0]` when a series is
empty. `ReachableIsConsistent` shows that this fallback is never taken,
because every series holds at least one entry.

## Model

| member | source | states |
|---|---|---|
| `History.Slice` | hooks/useMqtt.ts:37 | `slice(start)` never lengthens a series; a negative start keeps `min(|s|, -start)` entries; a non-negative start drops `start` entries or all of them |
| `History.SliceFromEnd` | hooks/useMqtt.ts:37 | `slice(-k)` is exactly the last `k` entries of the series (all of it when shorter) |
| `History.Append` | hooks/useMqtt.ts:37-39 | the appended series has length `min(|prev|, 5) + 1`, so never more than 6, and ends with the new value |
| `History.AppendKeepsNewestOld` | hooks/useMqtt.ts:37-39 | the entries before the new one are the last `min(|prev|, 5)` entries of the old series, in their old order |
| `History.AppendIsWindow` | hooks/useMqtt.ts:37-39 | appending equals the last 6 entries of the old series followed by the new value |
| `History.AppendKeepsAlignment` | hooks/useMqtt.ts:37-39 | two series of equal length are still of equal length after each gets one value |
| `History.AppendWhenFull` | hooks/useMqtt.ts:37-39 | a series of 6 or more stays at length 6: it drops its oldest entries and gains the new one |
| `Mqtt.Initial` | hooks/useMqtt.ts:7-15 | the initial state: no client, "Disconnected", light off, series `["00:00"]`, `[0]`, `[0]`; it is consistent |
| `Mqtt.ClientAttached` | hooks/useMqtt.ts:45 | `setClient`: the client exists afterwards; specified by `HandlersKeepConsistent` and `MqttState.AttachClient` |
| `Mqtt.OnConnected` | hooks/useMqtt.ts:20-21 | the `connect` handler; specified by `ConnectSetsConnected` (status "Connected", nothing else changes) and `HandlersKeepConsistent` |
| `Mqtt.OnErrored` | hooks/useMqtt.ts:44 | the `error` handler; specified by `ErrorSetsError` (status "Error", nothing else changes) and `HandlersKeepConsistent` |
| `Mqtt.RouteOf` | hooks/useMqtt.ts:28-30 | the handler's topic test, status topic first, then sensor topic, else ignored; specified by `StatusMessageSetsLight`, `SensorReadingRecorded`, `SensorParseFailureChangesNothing` and `OtherTopicChangesNothing` |
| `Mqtt.LightFlag` | hooks/useMqtt.ts:29 | the flag a status payload sets, true exactly for "1"; specified by `StatusMessageSetsLight` and `RunLightFollowsLastStatus` |
| `Mqtt.OnMessage` | hooks/useMqtt.ts:26-42 | the `message` handler; specified by `StatusMessageSetsLight`, `SensorReadingRecorded`, `SensorParseFailureChangesNothing`, `OtherTopicChangesNothing` and `OnMessageKeepsConsistent` |
| `Mqtt.CommandFor` | hooks/useMqtt.ts:50 | the toggle payload, the opposite of the flag; specified by `ToggleCommand` and `EchoedCommandFlipsLight` |
| `Mqtt.Toggle` | hooks/useMqtt.ts:49-51 | what `toggleLight` publishes; specified by `ToggleCommand` (a command iff a client exists, on the command topic, "0" iff the light is on) and `MqttState.ToggleLight` |
| `Mqtt.OnMessageKeepsConsistent` | hooks/useMqtt.ts:26-42 | the message handler keeps the series aligned and capped and the gauges on the newest point |
| `Mqtt.MqttState.constructor` | hooks/useMqtt.ts:7-15 | the fields start at the `useState` initial values |
| `Mqtt.MqttState.AttachClient` | hooks/useMqtt.ts:45 | after `setClient` the client exists and nothing else changes |
| `Mqtt.MqttState.HandleConnect` | hooks/useMqtt.ts:20-24 | status becomes Connected, nothing else changes, and the status and sensor topics are subscribed in that order |
| `Mqtt.MqttState.HandleError` | hooks/useMqtt.ts:44 | status becomes Error and nothing else changes |
| `Mqtt.MqttState.HandleMessage` | hooks/useMqtt.ts:26-42 | the in-place setters produce exactly the `OnMessage` state and keep the invariant |
| `Mqtt.MqttState.Record` | hooks/useMqtt.ts:33-39 | the sensor branch sets both gauges and appends the label and both values to the three series; nothing else changes |
| `Mqtt.MqttState.ToggleLight` | hooks/useMqtt.ts:49-51 | the returned command is `Toggle` of the current state; the method changes no field |
| `MqttProperties.StatusMessageSetsLight` | hooks/useMqtt.ts:28-29 | a status message sets the light flag to true exactly when the payload is "1" and changes nothing else |
| `MqttProperties.SensorParseFailureChangesNothing` | hooks/useMqtt.ts:30-40 | a sensor payload that fails to parse leaves the whole state unchanged |
| `MqttProperties.SensorReadingRecorded` | hooks/useMqtt.ts:30-39 | a parsed sensor payload sets temp and humi, appends to all three series (each ending in the new value, at most 6 long), and leaves client, status and light alone |
| `MqttProperties.OtherTopicChangesNothing` | hooks/useMqtt.ts:28-41 | a message on any topic other than status or sensor changes no state |
| `MqttProperties.HandlersKeepConsistent` | hooks/useMqtt.ts:20-45 | every handler keeps the series aligned, 1 to 6 long, and the gauges on the newest point |
| `MqttProperties.ConnectSetsConnected` | hooks/useMqtt.ts:20-21 | after `connect` the status string is "Connected" and nothing else differs |
| `MqttProperties.ErrorSetsError` | hooks/useMqtt.ts:44 | after `error` the status string is "Error" and nothing else differs |
| `MqttProperties.ToggleCommand` | hooks/useMqtt.ts:49-51 | a command is produced iff a client exists; it goes to the command topic; its payload is "0" iff the light is on and "1" iff it is off |
| `MqttProperties.EchoedCommandFlipsLight` | hooks/useMqtt.ts:28-50 | when the controller echoes the command on the status topic, the light flag becomes the opposite of what it was |
| `MqttProperties.RunKeepsConsistent` | hooks/useMqtt.ts:13-45 | after any sequence of handler calls from a consistent state the state is still consistent |
| `MqttProperties.ReachableIsConsistent` | hooks/useMqtt.ts:13-15 | every state reachable from the initial one is consistent, so no series ever exceeds 6 entries or becomes empty, and the three stay equal in length |
| `MqttProperties.RunIsSlidingWindow` | hooks/useMqtt.ts:37-39 | after any events each series is the last 6 entries of its starting value followed by the labels, temperatures or humidities of the accepted readings, in order |
| `MqttProperties.RunLightFollowsLastStatus` | hooks/useMqtt.ts:28-29 | after any events the light flag is "payload is 1" for the last status message, or unchanged if none arrived |

## Left out

- The MQTT client library (`mqtt.connect`, `subscribe`, `publish`, `end` at hooks/useMqtt.ts:18, 22-23, 46, 50) is foreign I/O. Subscriptions and publishes are returned as values; the unmount cleanup is not modelled.
- `JSON.parse` and `moment().format` (hooks/useMqtt.ts:32, 36) are foreign calls. They are the `parse` and `timeNow` parameters.
- Mqtt.OnMessage: a JSON value that parses but lacks `temp` or `humi` makes JavaScript store `undefined` without throwing. The model's `parse` yields either both fields or `None`, so it does not capture a partial reading.
- `message.toString()` (hooks/useMqtt.ts:27) decodes the MQTT payload buffer; the model receives the payload already as a string.
- `console.error(e)` in the `catch` (hooks/useMqtt.ts:40) is logging only and is not modelled; the catch branch changes no state.
- Temperature and humidity are JavaScript floats in the source. They are `int` here; the model does no arithmetic on them.
- React's state scheduling and effect lifecycle (`useState`, `useEffect`) are not modelled. Each handler call is one atomic update, and the effect runs once on mount (hooks/useMqtt.ts:17-47).
- The connection status is a three-value datatype. `Label()` gives the exact strings the hook stores.
- The chart, gauge and toggle components, styles and colours (components/, styles/, constants/Colors.ts) are presentation only.
- constants/Config.ts beyond the three topics (broker URL, credentials, random client id, timeouts) configures the network library.
