/**
 * The state of the `useMqtt` hook (hooks/useMqtt.ts) and its event handlers.
 *
 * `Snapshot` is the value of all the hook's `useState` fields at one moment;
 * the functions below give the new snapshot after each handler runs, and the
 * class `MqttState` holds the same fields as mutable state, with one method
 * per handler proved to agree with those functions. Each handler call is one
 * atomic update.
 */
module Mqtt {
  import opened Wrappers
  import opened Config
  import opened History

  /** The connection indicator: `connectionStatus` takes only these three strings. */
  datatype ConnectionStatus = Disconnected | Connected | Errored {
    /** The string the hook stores and the dashboard shows. */
    function Label(): string {
      match this
      case Disconnected => "Disconnected"
      case Connected => "Connected"
      case Errored => "Error"
    }
  }

  /** The fields `temp` and `humi` of a sensor payload that parsed as JSON. */
  datatype Reading = Reading(temp: int, humi: int)

  /** A message handed to the MQTT client's `publish`. */
  datatype Publish = Publish(topic: string, payload: string)

  /** All of the hook's `useState` fields; `hasClient` says whether `client` is non-null. */
  datatype Snapshot = Snapshot(
    hasClient: bool,
    status: ConnectionStatus,
    temp: int,
    humi: int,
    isLightOn: bool,
    chartLabels: seq<string>,
    tempData: seq<int>,
    humiData: seq<int>)

  /**
   * What every reachable snapshot satisfies: the three series have the same
   * length, between 1 and 6, and the gauges show the newest chart point.
   */
  predicate Consistent(s: Snapshot) {
    && |s.chartLabels| == |s.tempData| == |s.humiData|
    && 1 <= |s.chartLabels| <= Capacity
    && s.tempData[|s.tempData| - 1] == s.temp
    && s.humiData[|s.humiData| - 1] == s.humi
  }

  /** The state of a freshly mounted hook, before its effect has run. */
  function Initial(): (s: Snapshot)
    ensures Consistent(s)
    ensures !s.hasClient && s.status.Label() == "Disconnected" && !s.isLightOn
    ensures s.chartLabels == ["00:00"] && s.tempData == [0] && s.humiData == [0]
  {
    Snapshot(false, Disconnected, 0, 0, false, ["00:00"], [0], [0])
  }

  /** `setClient(mqttClient)` at the end of the effect: the client now exists. */
  function ClientAttached(s: Snapshot): Snapshot {
    s.(hasClient := true)
  }

  /** The `connect` handler: the status becomes "Connected". */
  function OnConnected(s: Snapshot): Snapshot {
    s.(status := Connected)
  }

  /** The `error` handler: the status becomes "Error". */
  function OnErrored(s: Snapshot): Snapshot {
    s.(status := Errored)
  }

  /** The topics the `connect` handler subscribes to, in the order it subscribes. */
  const Subscriptions: seq<string> := [StatusTopic, SensorTopic]

  /** Which branch of the `message` handler a topic takes. */
  datatype Route = LightStatus | SensorReading | Ignored

  /** The handler's test: the status topic first, then the sensor topic, anything else is ignored. */
  function RouteOf(topic: string): Route {
    if topic == StatusTopic then LightStatus
    else if topic == SensorTopic then SensorReading
    else Ignored
  }

  /** The light flag a status payload sets: on exactly when the payload is "1". */
  function LightFlag(payload: string): bool {
    payload == "1"
  }

  /**
   * The `message` handler. `parse` stands for `JSON.parse` followed by reading
   * `data.temp` and `data.humi` (None when that throws); `timeNow` is the
   * clock's `HH:mm:ss` label at the moment the message is handled.
   */
  function OnMessage(s: Snapshot, topic: string, payload: string,
                     parse: string -> Option<Reading>, timeNow: string): Snapshot
  {
    match RouteOf(topic)
    case LightStatus => s.(isLightOn := LightFlag(payload))
    case SensorReading =>
      (match parse(payload)
       case None => s
       case Some(data) =>
         s.(temp := data.temp, humi := data.humi,
            chartLabels := Append(s.chartLabels, timeNow),
            tempData := Append(s.tempData, data.temp),
            humiData := Append(s.humiData, data.humi)))
    case Ignored => s
  }

  /** The `message` handler keeps the state consistent. */
  lemma OnMessageKeepsConsistent(s: Snapshot, topic: string, payload: string,
                                 parse: string -> Option<Reading>, timeNow: string)
    requires Consistent(s)
    ensures Consistent(OnMessage(s, topic, payload, parse, timeNow))
  {
  }

  /** The payload `toggleLight` sends: the opposite of what the light is now. */
  function CommandFor(isLightOn: bool): string {
    if isLightOn then "0" else "1"
  }

  /** What `toggleLight` publishes: nothing without a client, else the command on the command topic. */
  function Toggle(s: Snapshot): Option<Publish> {
    if s.hasClient then Some(Publish(CommandTopic, CommandFor(s.isLightOn))) else None
  }

  /** The hook's state as mutable fields, updated in place by its handlers. */
  class MqttState {
    var hasClient: bool
    var connectionStatus: ConnectionStatus
    var temp: int
    var humi: int
    var isLightOn: bool
    var chartLabels: seq<string>
    var tempData: seq<int>
    var humiData: seq<int>

    /** The current values of the fields. */
    function View(): Snapshot
      reads this
    {
      Snapshot(hasClient, connectionStatus, temp, humi, isLightOn, chartLabels, tempData, humiData)
    }

    ghost predicate Valid()
      reads this
    {
      Consistent(View())
    }

    /** The `useState` initial values. */
    constructor ()
      ensures Valid()
      ensures View() == Initial()
    {
      hasClient := false;
      connectionStatus := Disconnected;
      temp := 0;
      humi := 0;
      isLightOn := false;
      chartLabels := ["00:00"];
      tempData := [0];
      humiData := [0];
    }

    /** `setClient(mqttClient)`. */
    method AttachClient()
      requires Valid()
      modifies this
      ensures Valid()
      ensures View() == ClientAttached(old(View()))
    {
      hasClient := true;
    }

    /** The `connect` handler; returns the topics it subscribes to. */
    method HandleConnect() returns (subscribed: seq<string>)
      requires Valid()
      modifies this
      ensures Valid()
      ensures View() == OnConnected(old(View()))
      ensures subscribed == Subscriptions
    {
      connectionStatus := Connected;
      subscribed := [StatusTopic, SensorTopic];
    }

    /** The `error` handler. */
    method HandleError()
      requires Valid()
      modifies this
      ensures Valid()
      ensures View() == OnErrored(old(View()))
    {
      connectionStatus := Errored;
    }

    /** The `message` handler, updating the fields one setter at a time. */
    method HandleMessage(topic: string, payload: string,
                         parse: string -> Option<Reading>, timeNow: string)
      requires Valid()
      modifies this
      ensures Valid()
      ensures View() == OnMessage(old(View()), topic, payload, parse, timeNow)
    {
      OnMessageKeepsConsistent(View(), topic, payload, parse, timeNow);
      var route := RouteOf(topic);
      if route == LightStatus {
        isLightOn := LightFlag(payload);
      } else if route == SensorReading {
        var parsed := parse(payload);
        if parsed.Some? {
          Record(parsed.value, timeNow);
        }
      }
    }

    /** The body of the sensor branch once the payload has parsed: the gauges and the three series. */
    method Record(data: Reading, timeNow: string)
      requires Valid()
      modifies this
      ensures Valid()
      ensures View() == old(View()).(temp := data.temp, humi := data.humi,
                                     chartLabels := Append(old(chartLabels), timeNow),
                                     tempData := Append(old(tempData), data.temp),
                                     humiData := Append(old(humiData), data.humi))
    {
      temp := data.temp;
      humi := data.humi;
      chartLabels := Append(chartLabels, timeNow);
      tempData := Append(tempData, data.temp);
      humiData := Append(humiData, data.humi);
    }

    /** `toggleLight`: the command to publish, if any; the local light flag is left alone. */
    method ToggleLight() returns (cmd: Option<Publish>)
      ensures cmd == Toggle(View())
    {
      if hasClient {
        cmd := Some(Publish(CommandTopic, CommandFor(isLightOn)));
      } else {
        cmd := None;
      }
    }
  }
}
