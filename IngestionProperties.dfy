/**
  What the ingestion pipeline guarantees, stated over the scans that specify
  the connect and message handlers: which `store_msg` calls a message causes,
  which points reach the database client, when a handler raises, and which
  topics are subscribed.
 */
module IngestionProperties {
  import opened PyJson
  import opened NodeConfigs
  import opened InfluxStores
  import opened MqttSources

  /** The sensors whose topic equals `topic` exactly, in table order. */
  function Matching(sensors: seq<NodeConfig>, topic: string): seq<NodeConfig>
  {
    if sensors == [] then []
    else (if sensors[0].Topic() == Ok(Str(topic)) then [sensors[0]] else []) + Matching(sensors[1..], topic)
  }

  /** Everything the message handler reads of the table for a message on
      `topic` can be read: every entry's topic, and the name and measurement
      of every entry whose topic is `topic`. */
  predicate Routable(sensors: seq<NodeConfig>, topic: string) {
    forall s :: s in sensors ==> s.Topic().Ok? && (s.Topic() == Ok(Str(topic)) ==> Readable(s))
  }

  /** The `store_msg` call a readable sensor receives for the reading `x`. */
  function CallOf(sensor: NodeConfig, x: real): StoreCall
    requires Readable(sensor)
  {
    StoreCall(sensor.Name().value, sensor.Measurement().value, Str(""), ValueDict(x))
  }

  /** The calls a message carrying the reading `x` should cause: one per
      matching sensor, in table order. */
  function ExpectedCalls(sensors: seq<NodeConfig>, topic: string, x: real): seq<StoreCall>
    requires Routable(sensors, topic)
  {
    if sensors == [] then []
    else
      (if sensors[0].Topic() == Ok(Str(topic)) then [CallOf(sensors[0], x)] else [])
      + ExpectedCalls(sensors[1..], topic, x)
  }

  /** The points `store_msg` hands to the client for these calls. */
  function PointsOf(calls: seq<StoreCall>): seq<Point>
  {
    seq(|calls|, i requires 0 <= i < |calls| => MakePoint(calls[i].sensor, calls[i].measurement, calls[i].data))
  }

  lemma PointsOfAppend(a: seq<StoreCall>, b: seq<StoreCall>)
    ensures PointsOf(a + b) == PointsOf(a) + PointsOf(b)
  {
  }

  /** The expected calls are exactly the matching sensors' calls, one each. */
  lemma {:induction false} ExpectedCallsFollowMatching(sensors: seq<NodeConfig>, topic: string, x: real)
    requires Routable(sensors, topic)
    ensures |ExpectedCalls(sensors, topic, x)| == |Matching(sensors, topic)|
    ensures forall i :: 0 <= i < |Matching(sensors, topic)| ==>
      && Matching(sensors, topic)[i].Topic() == Ok(Str(topic))
      && Readable(Matching(sensors, topic)[i])
      && ExpectedCalls(sensors, topic, x)[i] == CallOf(Matching(sensors, topic)[i], x)
  {
    if sensors != [] {
      var rest := sensors[1..];
      assert sensors[0] in sensors;
      assert forall s :: s in rest ==> s in sensors;
      ExpectedCallsFollowMatching(rest, topic, x);
      var m, m' := Matching(sensors, topic), Matching(rest, topic);
      var e, e' := ExpectedCalls(sensors, topic, x), ExpectedCalls(rest, topic, x);
      if sensors[0].Topic() == Ok(Str(topic)) {
        assert m == [sensors[0]] + m';
        assert e == [CallOf(sensors[0], x)] + e';
        forall i | 1 <= i < |m|
          ensures m[i] == m'[i - 1] && e[i] == e'[i - 1]
        {
        }
      } else {
        assert m == m' && e == e';
      }
    }
  }

  /** A message whose topic no sensor carries makes no `store_msg` call and
      hands no point to the client; it raises only if reading some sensor's
      topic raises. */
  lemma {:induction false} UnmatchedTopicStoresNothing(
    sensors: seq<NodeConfig>, topic: string, d: Decoded, answer: nat -> WriteOutcome, n: nat)
    requires forall i :: 0 <= i < |sensors| ==> sensors[i].Topic() != Ok(Str(topic))
    ensures Dispatch(sensors, topic, d, answer, n).calls == []
    ensures Dispatch(sensors, topic, d, answer, n).points == []
    ensures Dispatch(sensors, topic, d, answer, n).outcome == Pass <==>
      forall i :: 0 <= i < |sensors| ==> sensors[i].Topic().Ok?
  {
    if sensors != [] && sensors[0].Topic().Ok? {
      UnmatchedTopicStoresNothing(sensors[1..], topic, d, answer, n);
      assert forall i :: 1 <= i < |sensors| ==> sensors[i] == sensors[1..][i - 1];
    }
  }

  /** A payload that does not decode to a scalar makes no `store_msg` call and
      hands no point to the client. The handler completes only if no sensor
      matches. */
  lemma {:induction false} FailedDecodeStoresNothing(
    sensors: seq<NodeConfig>, topic: string, d: Decoded, answer: nat -> WriteOutcome, n: nat)
    requires !d.Scalar?
    ensures Dispatch(sensors, topic, d, answer, n).calls == []
    ensures Dispatch(sensors, topic, d, answer, n).points == []
    ensures Dispatch(sensors, topic, d, answer, n).outcome == Pass <==>
      forall i :: 0 <= i < |sensors| ==> sensors[i].Topic().Ok? && sensors[i].Topic().value != Str(topic)
  {
    if sensors != [] {
      var s0, others := sensors[0], sensors[1..];
      var run := Dispatch(sensors, topic, d, answer, n);
      if s0.Topic().Raise? {
        assert run == Run([], [], Fail(s0.Topic().error));
      } else if s0.Topic().value != Str(topic) {
        FailedDecodeStoresNothing(others, topic, d, answer, n);
        assert run == Dispatch(others, topic, d, answer, n);
        assert forall i :: 1 <= i < |sensors| ==> sensors[i] == others[i - 1];
      } else {
        assert run == Run([], [], Fail(CallFor(s0, d).error));
      }
    }
  }

  /** On a routable table with a matching sensor, a payload that does not
      decode to a scalar makes the handler raise the decode failure: unbound
      `payload`, the exception of `float`, or unbound `value`. */
  lemma {:induction false} FailedDecodeRaises(
    sensors: seq<NodeConfig>, topic: string, d: Decoded, answer: nat -> WriteOutcome, n: nat)
    requires !d.Scalar?
    requires Routable(sensors, topic) && Matching(sensors, topic) != []
    ensures Dispatch(sensors, topic, d, answer, n).outcome == Fail(DecodeFailure(d))
  {
    var s0, others := sensors[0], sensors[1..];
    var run := Dispatch(sensors, topic, d, answer, n);
    assert s0 in sensors;
    if s0.Topic() == Ok(Str(topic)) {
      assert Readable(s0);
      assert run == Run([], [], Fail(DecodeFailure(d)));
    } else {
      assert forall s :: s in others ==> s in sensors;
      assert Matching(sensors, topic) == Matching(others, topic);
      FailedDecodeRaises(others, topic, d, answer, n);
      assert run == Dispatch(others, topic, d, answer, n);
    }
  }

  /** Whatever the table and the payload, every `store_msg` call the handler
      makes passes the empty tags string and the dict `{"value": x}` of a
      scalar reading, so each call hands exactly one point to the client and
      the handler never meets `store_msg`'s "Wrong data" ValueError. */
  lemma {:induction false} HandlerStoresOnlyDicts(
    sensors: seq<NodeConfig>, topic: string, parsed: Option<Json>, parse: string -> Option<real>,
    answer: nat -> WriteOutcome, n: nat)
    ensures var d := Decode(parsed, parse);
      var run := Dispatch(sensors, topic, d, answer, n);
      && run.points == PointsOf(run.calls)
      && (forall c :: c in run.calls ==> d.Scalar? && c.tags == Str("") && c.data == ValueDict(d.x))
      && run.outcome != Fail(ValueError(WrongData))
  {
    var d := Decode(parsed, parse);
    if sensors != [] {
      var s0, others := sensors[0], sensors[1..];
      var run := Dispatch(sensors, topic, d, answer, n);
      if s0.Topic().Raise? {
        assert run == Run([], [], Fail(s0.Topic().error));
      } else if s0.Topic().value != Str(topic) {
        HandlerStoresOnlyDicts(others, topic, parsed, parse, answer, n);
        assert run == Dispatch(others, topic, d, answer, n);
      } else if CallFor(s0, d).Raise? {
        assert run == Run([], [], Fail(CallFor(s0, d).error));
      } else {
        var c := CallFor(s0, d).value;
        var p := MakePoint(c.sensor, c.measurement, c.data);
        if answer(n) == OtherErr {
          assert run == Run([c], [p], Fail(WriteError));
        } else {
          var rest := Dispatch(others, topic, d, answer, n + 1);
          HandlerStoresOnlyDicts(others, topic, parsed, parse, answer, n + 1);
          assert run == Run([c] + rest.calls, [p] + rest.points, rest.outcome);
          PointsOfAppend([c], rest.calls);
        }
      }
    }
  }

  /** A message carrying the reading `x`, on a routable table, calls
      `store_msg` once for each matching sensor, in table order, with that
      sensor's name and measurement, until the handler raises; it completes
      only after making every expected call. */
  lemma {:induction false} ScalarStoresEveryMatch(
    sensors: seq<NodeConfig>, topic: string, x: real, answer: nat -> WriteOutcome, n: nat)
    requires Routable(sensors, topic)
    ensures var run := Dispatch(sensors, topic, Scalar(x), answer, n);
      && run.calls <= ExpectedCalls(sensors, topic, x)
      && (run.outcome == Pass ==> run.calls == ExpectedCalls(sensors, topic, x))
  {
    if sensors != [] {
      var s0, others := sensors[0], sensors[1..];
      assert s0 in sensors;
      assert forall s :: s in others ==> s in sensors;
      var run := Dispatch(sensors, topic, Scalar(x), answer, n);
      if s0.Topic() != Ok(Str(topic)) {
        ScalarStoresEveryMatch(others, topic, x, answer, n);
        assert run == Dispatch(others, topic, Scalar(x), answer, n);
        assert ExpectedCalls(sensors, topic, x) == ExpectedCalls(others, topic, x);
      } else {
        var c := CallOf(s0, x);
        assert CallFor(s0, Scalar(x)) == Ok(c);
        assert ExpectedCalls(sensors, topic, x) == [c] + ExpectedCalls(others, topic, x);
        if answer(n) == OtherErr {
          assert run.calls == [c];
        } else {
          var rest := Dispatch(others, topic, Scalar(x), answer, n + 1);
          ScalarStoresEveryMatch(others, topic, x, answer, n + 1);
          assert run == Run([c] + rest.calls, [MakePoint(c.sensor, c.measurement, c.data)] + rest.points, rest.outcome);
        }
      }
    }
  }

  /** When a message carrying a scalar reading makes the handler raise, on a
      routable table, the exception is the write failure of its
      last `store_msg` call, and every earlier write was absorbed or
      succeeded. */
  lemma {:induction false} ScalarFailsOnlyOnWrite(
    sensors: seq<NodeConfig>, topic: string, x: real, answer: nat -> WriteOutcome, n: nat)
    requires Routable(sensors, topic)
    ensures var run := Dispatch(sensors, topic, Scalar(x), answer, n);
      run.outcome.Fail? ==>
        && run.outcome == Fail(WriteError)
        && 0 < |run.calls|
        && answer(n + |run.calls| - 1) == OtherErr
        && forall k :: n <= k < n + |run.calls| - 1 ==> answer(k) != OtherErr
  {
    if sensors != [] {
      var s0, others := sensors[0], sensors[1..];
      assert s0 in sensors;
      assert forall s :: s in others ==> s in sensors;
      assert Routable(others, topic);
      var run := Dispatch(sensors, topic, Scalar(x), answer, n);
      if s0.Topic() != Ok(Str(topic)) {
        ScalarFailsOnlyOnWrite(others, topic, x, answer, n);
        assert run == Dispatch(others, topic, Scalar(x), answer, n);
      } else {
        assert Readable(s0);
        var c := CallOf(s0, x);
        assert CallFor(s0, Scalar(x)) == Ok(c);
        if answer(n) == OtherErr {
          assert run == Run([c], [MakePoint(c.sensor, c.measurement, c.data)], Fail(WriteError));
        } else {
          var rest := Dispatch(others, topic, Scalar(x), answer, n + 1);
          ScalarFailsOnlyOnWrite(others, topic, x, answer, n + 1);
          assert run == Run([c] + rest.calls, [MakePoint(c.sensor, c.measurement, c.data)] + rest.points, rest.outcome);
          if rest.outcome.Fail? {
            assert |run.calls| == 1 + |rest.calls|;
            forall k | n <= k < n + |run.calls| - 1
              ensures answer(k) != OtherErr
            {
              if k != n {
                assert n + 1 <= k < (n + 1) + |rest.calls| - 1;
              }
            }
          }
        }
      }
    }
  }

  /** A message carrying a scalar reading, on a routable table, completes
      exactly when the client answers none of the writes of the expected
      calls with a failure other than a connection error. */
  lemma {:induction false} ScalarPassesIffWritesSucceed(
    sensors: seq<NodeConfig>, topic: string, x: real, answer: nat -> WriteOutcome, n: nat)
    requires Routable(sensors, topic)
    ensures Dispatch(sensors, topic, Scalar(x), answer, n).outcome == Pass <==>
      forall k :: n <= k < n + |ExpectedCalls(sensors, topic, x)| ==> answer(k) != OtherErr
  {
    if sensors != [] {
      var s0, others := sensors[0], sensors[1..];
      assert s0 in sensors;
      assert forall s :: s in others ==> s in sensors;
      var run := Dispatch(sensors, topic, Scalar(x), answer, n);
      if s0.Topic() != Ok(Str(topic)) {
        ScalarPassesIffWritesSucceed(others, topic, x, answer, n);
        assert run == Dispatch(others, topic, Scalar(x), answer, n);
        assert ExpectedCalls(sensors, topic, x) == ExpectedCalls(others, topic, x);
      } else {
        var c := CallOf(s0, x);
        assert CallFor(s0, Scalar(x)) == Ok(c);
        var m := |ExpectedCalls(others, topic, x)|;
        assert |ExpectedCalls(sensors, topic, x)| == 1 + m;
        if answer(n) == OtherErr {
          assert run.outcome == Fail(WriteError);
        } else {
          ScalarPassesIffWritesSucceed(others, topic, x, answer, n + 1);
          assert run.outcome == Dispatch(others, topic, Scalar(x), answer, n + 1).outcome;
        }
      }
    }
  }

  /** The connect handler subscribes, in table order, the topic of every sensor
      it gets past; it completes exactly when every entry has a topic and a
      name, and then has subscribed one topic per entry, duplicates included.
      Otherwise it stops at the first entry lacking either. */
  lemma {:induction false} SubscribesEverySensor(sensors: seq<NodeConfig>)
    ensures |Subscriptions(sensors).topics| <= |sensors|
    ensures forall i :: 0 <= i < |Subscriptions(sensors).topics| ==>
      sensors[i].Topic() == Ok(Subscriptions(sensors).topics[i]) && sensors[i].Name().Ok?
    ensures Subscriptions(sensors).outcome == Pass <==>
      forall i :: 0 <= i < |sensors| ==> sensors[i].Topic().Ok? && sensors[i].Name().Ok?
    ensures Subscriptions(sensors).outcome == Pass ==> |Subscriptions(sensors).topics| == |sensors|
    ensures Subscriptions(sensors).outcome.Fail? ==>
      var k := |Subscriptions(sensors).topics|;
      && k < |sensors|
      && (sensors[k].Topic().Raise? || sensors[k].Name().Raise?)
      && Subscriptions(sensors).outcome.error ==
           (if sensors[k].Topic().Raise? then sensors[k].Topic().error else sensors[k].Name().error)
  {
    if sensors != [] && sensors[0].Topic().Ok? && sensors[0].Name().Ok? {
      SubscribesEverySensor(sensors[1..]);
      assert forall i :: 1 <= i < |sensors| ==> sensors[i] == sensors[1..][i - 1];
    }
  }

  /** After a complete connect, each topic is subscribed exactly as many times
      as there are sensors that a message on it is routed to. */
  lemma {:induction false} SubscriptionsCountRoutes(sensors: seq<NodeConfig>, topic: string)
    requires Subscriptions(sensors).outcome == Pass
    ensures multiset(Subscriptions(sensors).topics)[Str(topic)] == |Matching(sensors, topic)|
  {
    if sensors != [] {
      SubscriptionsCountRoutes(sensors[1..], topic);
    }
  }

  /** Parsing a configuration whose "sensors" member is a list, then
      connecting, subscribes the "topic" member of every entry in list order,
      and completes exactly when every entry has a "topic" and a "name". */
  lemma ConfiguredTopicsSubscribed(config: Json)
    requires Subscript(config, "sensors").Ok? && Subscript(config, "sensors").value.Arr?
    ensures var items := Subscript(config, "sensors").value.items;
      var sub := Subscriptions(SensorTable(config).value);
      && (sub.outcome == Pass <==>
            forall i :: 0 <= i < |items| ==> Subscript(items[i], "topic").Ok? && Subscript(items[i], "name").Ok?)
      && (sub.outcome == Pass ==>
            |sub.topics| == |items| && forall i :: 0 <= i < |items| ==> Subscript(items[i], "topic") == Ok(sub.topics[i]))
  {
    SubscribesEverySensor(SensorTable(config).value);
  }
}
