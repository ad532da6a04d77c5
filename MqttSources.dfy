/**
  The subscriber side (class `MQTTSource`): the sensor table it builds from the
  configuration, the subscriptions its `on_connect` handler makes, and the
  routing and decoding its `on_message` handler does before handing each
  reading to the storage sink.
 */
module MqttSources {
  import opened PyJson
  import opened NodeConfigs
  import opened InfluxStores

  /** What lines 63-73 of the message handler leave behind for one matching
      sensor: `value` bound to `{"value": x}`, `value` left unbound because the
      payload is a dict, or the exception line 73 raised. */
  datatype Decoded =
    | Scalar(x: real)
    | IsDict
    | Raised(error: Exc)

  /** The one-entry dict `{"value": x}` built for a scalar payload. */
  function ValueDict(x: real): (d: Json)
    ensures d.Obj? && d.keys == ["value"] && d.fields.Keys == {"value"}
    ensures Subscript(d, "value") == Ok(Num(x))
  {
    Obj(["value"], map["value" := Num(x)])
  }

  /** The decode decision for a payload that `json.loads` turned into `parsed`
      (None when it raised ValueError): a dict is recognised and left as is;
      anything else goes through `float`; when parsing failed, `payload` is
      unbound at line 73. */
  function Decode(parsed: Option<Json>, parse: string -> Option<real>): (d: Decoded)
    ensures d.IsDict? <==> parsed.Some? && parsed.value.Obj?
    ensures d.Scalar? <==> parsed.Some? && !parsed.value.Obj? && Float(parsed.value, parse).Ok?
    ensures d.Scalar? ==> Float(parsed.value, parse) == Ok(d.x)
    ensures parsed.None? ==> d == Raised(UnboundLocalError("payload"))
    ensures parsed.Some? && (parsed.value.Arr? || parsed.value.Null?) ==> d.Raised? && d.error.TypeError?
    ensures parsed.Some? && !parsed.value.Obj? && Float(parsed.value, parse).Raise? ==>
      d == Raised(Float(parsed.value, parse).error)
    ensures d.Raised? ==>
      d.error == UnboundLocalError("payload") || d.error == ValueError(NotANumber) || d.error.TypeError?
  {
    match parsed
    case None => Raised(UnboundLocalError("payload"))
    case Some(p) =>
      if p.Obj? then IsDict
      else
        match Float(p, parse)
        case Ok(x) => Scalar(x)
        case Raise(e) => Raised(e)
  }

  /** The exception a matching, readable sensor meets when decoding fails. */
  function DecodeFailure(d: Decoded): (e: Exc)
    requires !d.Scalar?
    ensures d.IsDict? ==> e == UnboundLocalError("value")
    ensures d.Raised? ==> e == d.error
  {
    if d.IsDict? then UnboundLocalError("value") else d.error
  }

  /** The arguments of one `store_msg` call. */
  datatype StoreCall = StoreCall(sensor: Json, measurement: Json, tags: Json, data: Json)

  /** The `store_msg` call line 75 makes for a matching sensor, or the
      exception raised while evaluating its arguments: a decode error first,
      then `sensor.name`, then `sensor.measurement`, then the unbound `value`. */
  function CallFor(sensor: NodeConfig, d: Decoded): (r: Result<StoreCall>)
    ensures r.Ok? <==> d.Scalar? && sensor.Name().Ok? && sensor.Measurement().Ok?
    ensures r.Ok? ==> r.value == StoreCall(sensor.Name().value, sensor.Measurement().value, Str(""), ValueDict(d.x))
    ensures d.Raised? ==> r == Raise(d.error)
    ensures !d.Raised? && sensor.Name().Raise? ==> r == Raise(sensor.Name().error)
    ensures !d.Raised? && sensor.Name().Ok? && sensor.Measurement().Raise? ==> r == Raise(sensor.Measurement().error)
    ensures Readable(sensor) && !d.Scalar? ==> r == Raise(DecodeFailure(d))
  {
    if d.Raised? then Raise(d.error)
    else
      match sensor.Name()
      case Raise(e) => Raise(e)
      case Ok(name) =>
        match sensor.Measurement()
        case Raise(e) => Raise(e)
        case Ok(measurement) =>
          if d.IsDict? then Raise(UnboundLocalError("value"))
          else Ok(StoreCall(name, measurement, Str(""), ValueDict(d.x)))
  }

  /** What one message does: the `store_msg` calls made, the points handed to
      the database client, and how the handler ends. */
  datatype Run = Run(calls: seq<StoreCall>, points: seq<Point>, outcome: Outcome)

  /** The message handler's scan of `sensors` for a message on `topic` whose
      payload decodes to `d`, when the client answers its `k`-th write with
      `answer(k)` and has taken `n` writes before. Every sensor whose topic
      equals the message topic is stored; the first exception ends the scan. */
  function Dispatch(sensors: seq<NodeConfig>, topic: string, d: Decoded, answer: nat -> WriteOutcome, n: nat): Run
    decreases |sensors|
  {
    if sensors == [] then Run([], [], Pass)
    else
      match sensors[0].Topic()
      case Raise(e) => Run([], [], Fail(e))
      case Ok(t) =>
        if t != Str(topic) then Dispatch(sensors[1..], topic, d, answer, n)
        else
          match CallFor(sensors[0], d)
          case Raise(e) => Run([], [], Fail(e))
          case Ok(c) =>
            var stored := Store(c.sensor, c.measurement, c.tags, c.data, answer(n));
            var handed := HandedPoints(stored);
            if stored.outcome.Fail? then Run([c], handed, stored.outcome)
            else
              var rest := Dispatch(sensors[1..], topic, d, answer, n + |handed|);
              Run([c] + rest.calls, handed + rest.points, rest.outcome)
  }

  lemma AppendAssoc<T>(a: seq<T>, b: seq<T>, c: seq<T>)
    ensures (a + b) + c == a + (b + c)
  {
  }

  /** One step of the message handler's scan, at position `i` of the table. */
  lemma DispatchStep(table: seq<NodeConfig>, i: nat, topic: string, d: Decoded, answer: nat -> WriteOutcome, n: nat)
    requires i < |table|
    ensures table[i].Topic().Raise? ==> Dispatch(table[i..], topic, d, answer, n) == Run([], [], Fail(table[i].Topic().error))
    ensures table[i].Topic().Ok? && table[i].Topic().value != Str(topic) ==>
      Dispatch(table[i..], topic, d, answer, n) == Dispatch(table[i + 1..], topic, d, answer, n)
    ensures table[i].Topic() == Ok(Str(topic)) && CallFor(table[i], d).Raise? ==>
      Dispatch(table[i..], topic, d, answer, n) == Run([], [], Fail(CallFor(table[i], d).error))
    ensures table[i].Topic() == Ok(Str(topic)) && CallFor(table[i], d).Ok? ==>
      var c := CallFor(table[i], d).value;
      var stored := Store(c.sensor, c.measurement, c.tags, c.data, answer(n));
      var handed := HandedPoints(stored);
      var rest := Dispatch(table[i + 1..], topic, d, answer, n + |handed|);
      Dispatch(table[i..], topic, d, answer, n) ==
        if stored.outcome.Fail? then Run([c], handed, stored.outcome)
        else Run([c] + rest.calls, handed + rest.points, rest.outcome)
  {
    assert table[i..][0] == table[i] && table[i..][1..] == table[i + 1..];
  }

  /** What the connect handler does: the topics handed to `subscribe`, in
      order, and how the handler ends. */
  datatype Subscribed = Subscribed(topics: seq<Json>, outcome: Outcome)

  /** The connect handler's scan of `sensors`: each sensor's topic and name are
      read (for the log line) and its topic subscribed; the first exception
      ends the scan. */
  function Subscriptions(sensors: seq<NodeConfig>): Subscribed
    decreases |sensors|
  {
    if sensors == [] then Subscribed([], Pass)
    else
      match sensors[0].Topic()
      case Raise(e) => Subscribed([], Fail(e))
      case Ok(t) =>
        match sensors[0].Name()
        case Raise(e) => Subscribed([], Fail(e))
        case Ok(_) =>
          var rest := Subscriptions(sensors[1..]);
          Subscribed([t] + rest.topics, rest.outcome)
  }

  /** One step of the connect handler's scan, at position `i` of the table. */
  lemma SubscriptionsStep(table: seq<NodeConfig>, i: nat)
    requires i < |table|
    ensures table[i].Topic().Raise? ==> Subscriptions(table[i..]) == Subscribed([], Fail(table[i].Topic().error))
    ensures table[i].Topic().Ok? && table[i].Name().Raise? ==>
      Subscriptions(table[i..]) == Subscribed([], Fail(table[i].Name().error))
    ensures table[i].Topic().Ok? && table[i].Name().Ok? ==>
      var rest := Subscriptions(table[i + 1..]);
      Subscriptions(table[i..]) == Subscribed([table[i].Topic().value] + rest.topics, rest.outcome)
  {
    assert table[i..][0] == table[i] && table[i..][1..] == table[i + 1..];
  }

  /** The subscriber. `sensors` is the sensor table, `subscriptions` the topics
      handed to the transport's `subscribe`, `storeCalls` every `store_msg`
      call the message handler made, and `influx` the storage sink. */
  class MqttSource {
    var sensors: seq<NodeConfig>
    var subscriptions: seq<Json>
    ghost var storeCalls: seq<StoreCall>
    const influx: InfluxStore

    constructor (influx: InfluxStore)
      ensures sensors == [] && subscriptions == [] && storeCalls == []
      ensures this.influx == influx
    {
      sensors := [];
      subscriptions := [];
      storeCalls := [];
      this.influx := influx;
    }

    /** `parseSensors`: appends one entry per element of `config["sensors"]`,
        or raises before appending anything. */
    method ParseSensors(config: Json) returns (outcome: Outcome)
      modifies this`sensors
      ensures SensorTable(config).Ok? ==> outcome == Pass && sensors == old(sensors) + SensorTable(config).value
      ensures SensorTable(config).Raise? ==> outcome == Fail(SensorTable(config).error) && sensors == old(sensors)
    {
      var entries := SensorEntries(config);
      if entries.Raise? {
        return Fail(entries.error);
      }
      var i := 0;
      while i < |entries.value|
        invariant 0 <= i <= |entries.value|
        invariant sensors == old(sensors) + Wrap(entries.value[..i])
      {
        sensors := sensors + [NodeConfig(entries.value[i])];
        i := i + 1;
        assert entries.value[..i] == entries.value[..i - 1] + [entries.value[i - 1]];
      }
      assert entries.value[..i] == entries.value;
      return Pass;
    }

    /** `on_connect`: subscribes every sensor's topic, in table order. */
    method OnConnect() returns (outcome: Outcome)
      modifies this`subscriptions
      ensures subscriptions == old(subscriptions) + Subscriptions(sensors).topics
      ensures outcome == Subscriptions(sensors).outcome
    {
      var table := sensors;
      ghost var whole := Subscriptions(table);
      var i := 0;
      while i < |table|
        invariant 0 <= i <= |table|
        invariant old(subscriptions) + whole.topics == subscriptions + Subscriptions(table[i..]).topics
        invariant whole.outcome == Subscriptions(table[i..]).outcome
      {
        SubscriptionsStep(table, i);
        var topic := table[i].Topic();
        if topic.Raise? {
          return Fail(topic.error);
        }
        var name := table[i].Name();
        if name.Raise? {
          return Fail(name.error);
        }
        subscriptions := subscriptions + [topic.value];
        i := i + 1;
      }
      return Pass;
    }

    /** Lines 63-75 of `on_message` for one sensor whose topic matched:
        decode the payload, evaluate the arguments of `store_msg` and call it. */
    method StoreMatch(sensor: NodeConfig, d: Decoded) returns (outcome: Outcome)
      modifies this`storeCalls, influx`points
      ensures CallFor(sensor, d).Raise? ==>
        && outcome == Fail(CallFor(sensor, d).error)
        && storeCalls == old(storeCalls) && influx.points == old(influx.points)
      ensures CallFor(sensor, d).Ok? ==>
        var c := CallFor(sensor, d).value;
        var stored := Store(c.sensor, c.measurement, c.tags, c.data, influx.answer(|old(influx.points)|));
        && outcome == stored.outcome
        && storeCalls == old(storeCalls) + [c]
        && influx.points == old(influx.points) + HandedPoints(stored)
    {
      if d.Raised? {
        return Fail(d.error);
      }
      var name := sensor.Name();
      if name.Raise? {
        return Fail(name.error);
      }
      var measurement := sensor.Measurement();
      if measurement.Raise? {
        return Fail(measurement.error);
      }
      if d.IsDict? {
        return Fail(UnboundLocalError("value"));
      }
      var call := StoreCall(name.value, measurement.value, Str(""), ValueDict(d.x));
      storeCalls := storeCalls + [call];
      outcome := influx.StoreMsg(call.sensor, call.measurement, call.tags, call.data);
    }

    /** `on_message` for a message on `topic` carrying `payload`, where
        `loads` is the JSON parser (None when it raises ValueError) and
        `parse` the numeric parser behind `float` of a string. */
    method OnMessage(topic: string, payload: Payload, loads: Payload -> Option<Json>, parse: string -> Option<real>)
      returns (outcome: Outcome)
      modifies this`storeCalls, influx`points
      ensures var run := Dispatch(sensors, topic, Decode(loads(payload), parse), influx.answer, |old(influx.points)|);
        && storeCalls == old(storeCalls) + run.calls
        && influx.points == old(influx.points) + run.points
        && outcome == run.outcome
    {
      var table := sensors;
      ghost var d := Decode(loads(payload), parse);
      ghost var whole := Dispatch(table, topic, d, influx.answer, |influx.points|);
      var i := 0;
      while i < |table|
        invariant 0 <= i <= |table|
        invariant var rest := Dispatch(table[i..], topic, d, influx.answer, |influx.points|);
          && old(storeCalls) + whole.calls == storeCalls + rest.calls
          && old(influx.points) + whole.points == influx.points + rest.points
          && whole.outcome == rest.outcome
      {
        DispatchStep(table, i, topic, d, influx.answer, |influx.points|);
        ghost var callsBefore, pointsBefore := storeCalls, influx.points;
        var sensorTopic := table[i].Topic();
        if sensorTopic.Raise? {
          return Fail(sensorTopic.error);
        }
        if sensorTopic.value == Str(topic) {
          var decoded := Decode(loads(payload), parse);
          var stored := StoreMatch(table[i], decoded);
          if CallFor(table[i], d).Ok? {
            ghost var c := CallFor(table[i], d).value;
            ghost var handed := HandedPoints(Store(c.sensor, c.measurement, c.tags, c.data, influx.answer(|pointsBefore|)));
            ghost var rest := Dispatch(table[i + 1..], topic, d, influx.answer, |influx.points|);
            AppendAssoc(callsBefore, [c], rest.calls);
            AppendAssoc(pointsBefore, handed, rest.points);
          }
          if stored.Fail? {
            return stored;
          }
        }
        i := i + 1;
      }
      return Pass;
    }
  }
}
