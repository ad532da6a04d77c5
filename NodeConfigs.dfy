/**
  One sensor entry of the configuration (class `nodeConfig`) and the sensor
  table that `MQTTSource.parseSensors` builds from the configuration document.
 */
module NodeConfigs {
  import opened PyJson

  /** A configuration entry, kept exactly as it was read. Its three properties
      look the entry up on every access, so each access can raise. */
  datatype NodeConfig = NodeConfig(json: Json) {

    /** `sensor.topic`: the entry's "topic" member. */
    function Topic(): Result<Json> { Subscript(json, "topic") }

    /** `sensor.name`: the entry's "name" member. */
    function Name(): Result<Json> { Subscript(json, "name") }

    /** `sensor.measurement`: the entry's "measurement" member. */
    function Measurement(): Result<Json> { Subscript(json, "measurement") }
  }

  /** An entry every property of which can be read without raising. */
  predicate Readable(sensor: NodeConfig) {
    sensor.Topic().Ok? && sensor.Name().Ok? && sensor.Measurement().Ok?
  }

  /** One wrapper per element, in order. */
  function Wrap(entries: seq<Json>): (table: seq<NodeConfig>)
    ensures |table| == |entries|
    ensures forall i :: 0 <= i < |entries| ==> table[i].json == entries[i]
  {
    seq(|entries|, i requires 0 <= i < |entries| => NodeConfig(entries[i]))
  }

  /** The entries `for sensor in config["sensors"]` visits, or the exception
      raised by the lookup or by the iteration. */
  function SensorEntries(config: Json): Result<seq<Json>>
  {
    match Subscript(config, "sensors")
    case Raise(e) => Raise(e)
    case Ok(sensors) => Iterate(sensors)
  }

  /** The sensor table `parseSensors` appends: one wrapper per entry of
      `config["sensors"]`, in order, whose topic, name and measurement are
      that entry's members. */
  function SensorTable(config: Json): (r: Result<seq<NodeConfig>>)
    ensures r.Ok? <==> Subscript(config, "sensors").Ok? && Iterate(Subscript(config, "sensors").value).Ok?
    ensures r.Raise? ==> r.error.KeyError? || r.error.TypeError?
    ensures r.Raise? && r.error.KeyError? ==> r.error.key == "sensors"
    ensures r.Ok? ==> r.value == Wrap(SensorEntries(config).value)
    ensures Subscript(config, "sensors").Ok? && Subscript(config, "sensors").value.Arr? ==>
      var items := Subscript(config, "sensors").value.items;
      r.Ok? && |r.value| == |items| &&
      forall i :: 0 <= i < |items| ==>
        && r.value[i].Topic() == Subscript(items[i], "topic")
        && r.value[i].Name() == Subscript(items[i], "name")
        && r.value[i].Measurement() == Subscript(items[i], "measurement")
  {
    match SensorEntries(config)
    case Raise(e) => Raise(e)
    case Ok(entries) => Ok(Wrap(entries))
  }
}
