/**
  The storage sink (class `influxStore`): `store_msg` validates the data,
  builds one point and hands it to the database client, absorbing only a
  connection error.
 */
module InfluxStores {
  import opened PyJson

  /** What the database client's `write_points` does with one call. */
  datatype WriteOutcome =
    | Written    // the point was accepted
    | ConnErr    // requests.exceptions.ConnectionError
    | OtherErr   // any other exception

  /** The point dict `store_msg` builds: a measurement, the tags dict and the fields. */
  datatype Point = Point(measurement: Json, tags: map<string, Json>, fields: Json)

  /** What one `store_msg` call does: the point it hands to `write_points`
      (none when it raises before writing) and how the call ends. */
  datatype StoreEffect = StoreEffect(handed: Option<Point>, outcome: Outcome)

  /** The point for one sensor reading: tagged with the sensor alone, carrying
      the data as its fields. */
  function MakePoint(sensor: Json, measurement: Json, data: Json): (p: Point)
    ensures p.measurement == measurement
    ensures p.tags.Keys == {"sensor_node"} && p.tags["sensor_node"] == sensor
    ensures p.fields == data
  {
    Point(measurement, map["sensor_node" := sensor], data)
  }

  /** `store_msg(sensor, measurement, tags, data)` when the client answers
      `answer` to the write. The `tags` argument takes no part. */
  function Store(sensor: Json, measurement: Json, tags: Json, data: Json, answer: WriteOutcome): (e: StoreEffect)
    ensures e.handed.Some? <==> data.Obj?
    ensures e.handed.Some? ==> e.handed.value == MakePoint(sensor, measurement, data)
    ensures !data.Obj? ==> e.outcome == Fail(ValueError(WrongData))
    ensures data.Obj? ==> (e.outcome == Pass <==> answer != OtherErr)
    ensures data.Obj? && e.outcome.Fail? ==> e.outcome.error == WriteError
  {
    if !data.Obj? then StoreEffect(None, Fail(ValueError(WrongData)))
    else
      var point := MakePoint(sensor, measurement, data);
      match answer
      case Written => StoreEffect(Some(point), Pass)
      case ConnErr => StoreEffect(Some(point), Pass)
      case OtherErr => StoreEffect(Some(point), Fail(WriteError))
  }

  /** The points one `store_msg` call hands to the client, as a sequence. */
  function HandedPoints(e: StoreEffect): (ps: seq<Point>)
    ensures e.handed.None? <==> ps == []
    ensures e.handed.Some? ==> ps == [e.handed.value]
  {
    if e.handed.Some? then [e.handed.value] else []
  }

  /** The `tags` argument is ignored: two calls that differ only in it agree. */
  lemma StoreIgnoresTags(sensor: Json, measurement: Json, tags: Json, tags': Json, data: Json, answer: WriteOutcome)
    ensures Store(sensor, measurement, tags, data, answer) == Store(sensor, measurement, tags', data, answer)
  {
  }

  /** A storage sink over a database client. The client is an oracle:
      `answer(n)` is how it answers its `n`-th `write_points` call, and
      `points` records every point handed to it, in order. */
  class InfluxStore {
    const answer: nat -> WriteOutcome
    var points: seq<Point>

    constructor (answer: nat -> WriteOutcome)
      ensures this.answer == answer && points == []
    {
      this.answer := answer;
      points := [];
    }

    /** `store_msg`: raises ValueError for non-dict data without calling the
        client; otherwise hands it one point and raises only if the client
        fails with something other than a connection error. */
    method StoreMsg(sensor: Json, measurement: Json, tags: Json, data: Json) returns (outcome: Outcome)
      modifies this`points
      ensures var e := Store(sensor, measurement, tags, data, answer(|old(points)|));
        outcome == e.outcome && points == old(points) + HandedPoints(e)
    {
      if !data.Obj? {
        return Fail(ValueError(WrongData));
      }
      var point := MakePoint(sensor, measurement, data);
      var reply := answer(|points|);
      points := points + [point];
      if reply == OtherErr {
        return Fail(WriteError);
      }
      return Pass;
    }
  }
}
