/**
  Whole runs of the bridge on a one-sensor configuration: the sensor table is
  parsed, the subscriber connects, and one message arrives.
 */
module Scenarios {
  import opened PyJson
  import opened NodeConfigs
  import opened InfluxStores
  import opened MqttSources

  /** `{"topic": "sensors/temp1", "name": "temp1", "measurement": "temperature"}` */
  function TemperatureEntry(): Json {
    Obj(["topic", "name", "measurement"],
        map["topic" := Str("sensors/temp1"), "name" := Str("temp1"), "measurement" := Str("temperature")])
  }

  /** `{"sensors": [TemperatureEntry()]}` */
  function TemperatureConfig(): Json {
    Obj(["sensors"], map["sensors" := Arr([TemperatureEntry()])])
  }

  /** The payload bytes `b"23.7"`. */
  function Reading(): Payload {
    [0x32, 0x33, 0x2e, 0x37]
  }

  /** The payload bytes `b'{"temp": 21.0, "humidity": 55.0}'`. */
  function ObjectReading(): Payload {
    [0x7b, 0x22, 0x74, 0x65, 0x6d, 0x70, 0x22, 0x3a, 0x20, 0x32, 0x31, 0x2e, 0x30, 0x2c, 0x20, 0x22,
     0x68, 0x75, 0x6d, 0x69, 0x64, 0x69, 0x74, 0x79, 0x22, 0x3a, 0x20, 0x35, 0x35, 0x2e, 0x30, 0x7d]
  }

  /** Parsing the configuration, connecting and receiving `23.7` on the sensor's
      topic, when the client answers the write with success or a connection
      error, subscribes that topic once and hands the client exactly one
      point: the measurement "temperature", tagged with the sensor "temp1",
      with the fields `{"value": 23.7}`. */
  method TemperatureReading(loads: Payload -> Option<Json>, parse: string -> Option<real>, answer: nat -> WriteOutcome)
    returns (subscribed: seq<Json>, handed: seq<Point>, outcome: Outcome)
    requires loads(Reading()) == Some(Num(23.7))
    requires answer(0) != OtherErr
    ensures subscribed == [Str("sensors/temp1")]
    ensures handed == [Point(Str("temperature"), map["sensor_node" := Str("temp1")], ValueDict(23.7))]
    ensures outcome == Pass
  {
    var influx := new InfluxStore(answer);
    var source := new MqttSource(influx);
    var parsed := source.ParseSensors(TemperatureConfig());
    assert source.sensors == [NodeConfig(TemperatureEntry())];
    var connected := source.OnConnect();
    outcome := source.OnMessage("sensors/temp1", Reading(), loads, parse);
    subscribed, handed := source.subscriptions, influx.points;
  }

  /** A JSON object on the sensor's topic leaves `value` unbound: the handler
      raises UnboundLocalError and hands the client no point. */
  method DictReading(loads: Payload -> Option<Json>, parse: string -> Option<real>, answer: nat -> WriteOutcome)
    returns (handed: seq<Point>, outcome: Outcome)
    requires loads(ObjectReading()) ==
      Some(Obj(["temp", "humidity"], map["temp" := Num(21.0), "humidity" := Num(55.0)]))
    ensures handed == []
    ensures outcome == Fail(UnboundLocalError("value"))
  {
    var influx := new InfluxStore(answer);
    var source := new MqttSource(influx);
    var parsed := source.ParseSensors(TemperatureConfig());
    assert source.sensors == [NodeConfig(TemperatureEntry())];
    outcome := source.OnMessage("sensors/temp1", ObjectReading(), loads, parse);
    handed := influx.points;
  }

  /** A message on a topic no sensor carries hands the client no point and
      completes. */
  method UnknownTopic(loads: Payload -> Option<Json>, parse: string -> Option<real>, answer: nat -> WriteOutcome)
    returns (handed: seq<Point>, outcome: Outcome)
    ensures handed == []
    ensures outcome == Pass
  {
    var influx := new InfluxStore(answer);
    var source := new MqttSource(influx);
    var parsed := source.ParseSensors(TemperatureConfig());
    assert source.sensors == [NodeConfig(TemperatureEntry())];
    outcome := source.OnMessage("sensors/temp2", Reading(), loads, parse);
    handed := influx.points;
  }
}
