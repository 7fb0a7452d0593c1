/**
 * What the `useMqtt` handlers promise: one lemma per branch of the message
 * dispatcher, the toggle command, and what any sequence of events leaves behind.
 */
module MqttProperties {
  import opened Wrappers
  import opened Config
  import opened History
  import opened Mqtt

  // ---------------------------------------------------------------------------
  // One event at a time
  // ---------------------------------------------------------------------------

  /** A status message sets the light flag to "payload is 1" and changes nothing else. */
  lemma StatusMessageSetsLight(s: Snapshot, payload: string,
                               parse: string -> Option<Reading>, timeNow: string)
    ensures OnMessage(s, StatusTopic, payload, parse, timeNow) == s.(isLightOn := payload == "1")
    ensures OnMessage(s, StatusTopic, payload, parse, timeNow).isLightOn <==> payload == "1"
  {
  }

  /** A sensor payload that does not parse leaves the whole state as it was. */
  lemma SensorParseFailureChangesNothing(s: Snapshot, payload: string,
                                         parse: string -> Option<Reading>, timeNow: string)
    requires parse(payload).None?
    ensures OnMessage(s, SensorTopic, payload, parse, timeNow) == s
  {
  }

  /**
   * A sensor payload that parses sets both gauges to the reading, adds the
   * clock label and the two values to the three series (each ending in the
   * new value, each capped at six) and changes nothing else.
   */
  lemma SensorReadingRecorded(s: Snapshot, payload: string,
                              parse: string -> Option<Reading>, timeNow: string, r: Reading)
    requires parse(payload) == Some(r)
    ensures var s' := OnMessage(s, SensorTopic, payload, parse, timeNow);
      && s'.temp == r.temp && s'.humi == r.humi
      && s'.chartLabels == Append(s.chartLabels, timeNow)
      && s'.tempData == Append(s.tempData, r.temp)
      && s'.humiData == Append(s.humiData, r.humi)
      && s'.chartLabels[|s'.chartLabels| - 1] == timeNow
      && s'.tempData[|s'.tempData| - 1] == r.temp
      && s'.humiData[|s'.humiData| - 1] == r.humi
      && |s'.tempData| <= Capacity
      && s'.hasClient == s.hasClient && s'.status == s.status && s'.isLightOn == s.isLightOn
  {
  }

  /** A message on any other topic changes no state. */
  lemma OtherTopicChangesNothing(s: Snapshot, topic: string, payload: string,
                                 parse: string -> Option<Reading>, timeNow: string)
    requires topic != StatusTopic && topic != SensorTopic
    ensures OnMessage(s, topic, payload, parse, timeNow) == s
  {
  }

  /** Every handler keeps the series aligned and capped and the gauges on the newest point. */
  lemma HandlersKeepConsistent(s: Snapshot, topic: string, payload: string,
                               parse: string -> Option<Reading>, timeNow: string)
    requires Consistent(s)
    ensures Consistent(ClientAttached(s))
    ensures Consistent(OnConnected(s))
    ensures Consistent(OnErrored(s))
    ensures Consistent(OnMessage(s, topic, payload, parse, timeNow))
  {
  }

  /** After `connect` the status reads "Connected"; nothing else changes. */
  lemma ConnectSetsConnected(s: Snapshot)
    ensures OnConnected(s).status.Label() == "Connected"
    ensures OnConnected(s).(status := s.status) == s
  {
  }

  /** After `error` the status reads "Error"; nothing else changes. */
  lemma ErrorSetsError(s: Snapshot)
    ensures OnErrored(s).status.Label() == "Error"
    ensures OnErrored(s).(status := s.status) == s
  {
  }

  /**
   * `toggleLight` publishes exactly when a client exists, always on the
   * command topic, with "0" when the light is on and "1" when it is off.
   */
  lemma ToggleCommand(s: Snapshot)
    ensures Toggle(s).Some? <==> s.hasClient
    ensures Toggle(s).Some? ==> Toggle(s).value.topic == CommandTopic
    ensures Toggle(s).Some? ==> (Toggle(s).value.payload == "0" <==> s.isLightOn)
    ensures Toggle(s).Some? ==> (Toggle(s).value.payload == "1" <==> !s.isLightOn)
  {
  }

  /**
   * The command is the opposite of the flag: when the controller echoes it
   * back on the status topic, the light flag flips.
   */
  lemma EchoedCommandFlipsLight(s: Snapshot, parse: string -> Option<Reading>, timeNow: string)
    requires s.hasClient
    ensures OnMessage(s, StatusTopic, Toggle(s).value.payload, parse, timeNow).isLightOn == !s.isLightOn
  {
  }

  // ---------------------------------------------------------------------------
  // Sequences of events
  // ---------------------------------------------------------------------------

  /** One call of a handler of the hook (toggling does not change state, so it is not an event). */
  datatype Event =
    | Attach
    | Connect
    | Error
    | Message(topic: string, payload: string, timeNow: string)

  function Step(s: Snapshot, e: Event, parse: string -> Option<Reading>): Snapshot {
    match e
    case Attach => ClientAttached(s)
    case Connect => OnConnected(s)
    case Error => OnErrored(s)
    case Message(topic, payload, timeNow) => OnMessage(s, topic, payload, parse, timeNow)
  }

  /** The state after the handlers run for `evs`, in order. */
  function Run(s: Snapshot, evs: seq<Event>, parse: string -> Option<Reading>): Snapshot
    decreases |evs|
  {
    if evs == [] then s else Run(Step(s, evs[0], parse), evs[1..], parse)
  }

  /** A sensor reading that was accepted, with the clock label it was filed under. */
  datatype Sample = Sample(time: string, reading: Reading)

  /** The sample a single event yields: only a sensor message whose payload parses yields one. */
  function SampleOf(e: Event, parse: string -> Option<Reading>): Option<Sample> {
    match e
    case Message(topic, payload, timeNow) =>
      if RouteOf(topic) == SensorReading && parse(payload).Some?
      then Some(Sample(timeNow, parse(payload).value)) else None
    case _ => None
  }

  /** The samples among `evs` that a sensor message with a parseable payload produced, in order. */
  function Accepted(evs: seq<Event>, parse: string -> Option<Reading>): seq<Sample>
    decreases |evs|
  {
    if evs == [] then []
    else
      match SampleOf(evs[0], parse)
      case Some(x) => [x] + Accepted(evs[1..], parse)
      case None => Accepted(evs[1..], parse)
  }

  function Times(xs: seq<Sample>): seq<string> {
    if xs == [] then [] else [xs[0].time] + Times(xs[1..])
  }

  function Temps(xs: seq<Sample>): seq<int> {
    if xs == [] then [] else [xs[0].reading.temp] + Temps(xs[1..])
  }

  function Humis(xs: seq<Sample>): seq<int> {
    if xs == [] then [] else [xs[0].reading.humi] + Humis(xs[1..])
  }

  /** The payload of the last status message among `evs`, if there is one. */
  function LastStatusPayload(evs: seq<Event>): Option<string>
    decreases |evs|
  {
    if evs == [] then None
    else
      match LastStatusPayload(evs[1..])
      case Some(p) => Some(p)
      case None =>
        match evs[0]
        case Message(topic, payload, _) => if RouteOf(topic) == LightStatus then Some(payload) else None
        case _ => None
  }

  /** A single event keeps the state consistent. */
  lemma StepKeepsConsistent(s: Snapshot, e: Event, parse: string -> Option<Reading>)
    requires Consistent(s)
    ensures Consistent(Step(s, e, parse))
  {
    match e
    case Message(topic, payload, timeNow) =>
      HandlersKeepConsistent(s, topic, payload, parse, timeNow);
    case _ =>
      HandlersKeepConsistent(s, "", "", parse, "");
  }

  /** Whatever events arrive, the state stays consistent. */
  lemma {:induction false} RunKeepsConsistent(s: Snapshot, evs: seq<Event>,
                                              parse: string -> Option<Reading>)
    requires Consistent(s)
    ensures Consistent(Run(s, evs, parse))
    decreases |evs|
  {
    if evs != [] {
      StepKeepsConsistent(s, evs[0], parse);
      RunKeepsConsistent(Step(s, evs[0], parse), evs[1..], parse);
    }
  }

  /** Every reachable state of the hook is consistent: in particular no series exceeds six entries. */
  lemma ReachableIsConsistent(evs: seq<Event>, parse: string -> Option<Reading>)
    ensures Consistent(Run(Initial(), evs, parse))
    ensures |Run(Initial(), evs, parse).tempData| <= Capacity
  {
    RunKeepsConsistent(Initial(), evs, parse);
  }

  /** The series change under one event exactly when it yields a sample, and then by one `Append` each. */
  lemma StepRecords(s: Snapshot, e: Event, parse: string -> Option<Reading>)
    ensures SampleOf(e, parse).None? ==>
      var s' := Step(s, e, parse);
      s'.chartLabels == s.chartLabels && s'.tempData == s.tempData && s'.humiData == s.humiData
    ensures SampleOf(e, parse).Some? ==>
      var s', x := Step(s, e, parse), SampleOf(e, parse).value;
      && s'.chartLabels == Append(s.chartLabels, x.time)
      && s'.tempData == Append(s.tempData, x.reading.temp)
      && s'.humiData == Append(s.humiData, x.reading.humi)
  {
  }

  /**
   * After any events, each chart series is the last six entries of its
   * starting value followed by everything the accepted readings added:
   * exactly a sliding window over the readings.
   */
  lemma {:induction false} RunIsSlidingWindow(s: Snapshot, evs: seq<Event>,
                                              parse: string -> Option<Reading>)
    requires Consistent(s)
    ensures var r, xs := Run(s, evs, parse), Accepted(evs, parse);
      && r.chartLabels == LastN(s.chartLabels + Times(xs), Capacity)
      && r.tempData == LastN(s.tempData + Temps(xs), Capacity)
      && r.humiData == LastN(s.humiData + Humis(xs), Capacity)
    decreases |evs|
  {
    if evs == [] {
      assert s.chartLabels + [] == s.chartLabels && s.tempData + [] == s.tempData && s.humiData + [] == s.humiData;
      LastNShort(s.chartLabels, Capacity);
      LastNShort(s.tempData, Capacity);
      LastNShort(s.humiData, Capacity);
    } else {
      var e, rest := evs[0], evs[1..];
      var ys := Accepted(rest, parse);
      StepKeepsConsistent(s, e, parse);
      StepRecords(s, e, parse);
      RunIsSlidingWindow(Step(s, e, parse), rest, parse);
      match SampleOf(e, parse)
      case None =>
      case Some(x) =>
        assert ([x] + ys)[1..] == ys;
        ExtendWindow(s.chartLabels, x.time, Times(ys));
        ExtendWindow(s.tempData, x.reading.temp, Temps(ys));
        ExtendWindow(s.humiData, x.reading.humi, Humis(ys));
    }
  }

  /** Appending one entry and then windowing the rest is windowing the whole. */
  lemma ExtendWindow<T>(prev: seq<T>, x: T, more: seq<T>)
    ensures LastN(Append(prev, x) + more, Capacity) == LastN(prev + ([x] + more), Capacity)
  {
    AppendIsWindow(prev, x);
    LastNConcat(prev + [x], more, Capacity);
    assert prev + [x] + more == prev + ([x] + more);
  }

  /** After any events, the light flag reflects the last status message, or is unchanged if there was none. */
  lemma {:induction false} RunLightFollowsLastStatus(s: Snapshot, evs: seq<Event>,
                                                     parse: string -> Option<Reading>)
    ensures Run(s, evs, parse).isLightOn ==
      match LastStatusPayload(evs)
      case Some(p) => p == "1"
      case None => s.isLightOn
    decreases |evs|
  {
    if evs != [] {
      var s' := Step(s, evs[0], parse);
      RunLightFollowsLastStatus(s', evs[1..], parse);
      match evs[0]
      case Message(topic, payload, timeNow) =>
        if topic != StatusTopic && topic != SensorTopic {
          OtherTopicChangesNothing(s, topic, payload, parse, timeNow);
        }
      case _ =>
    }
  }
}
