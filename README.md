# mqtt2Influx ingestion pipeline, modelled in Dafny

mqtt2Influx is a bridge from MQTT to InfluxDB. At start-up it reads a list of sensors. Each sensor has a `topic`, a `name` and a `measurement`. The bridge then subscribes to every sensor's topic. For each incoming message, it decodes the payload and writes one InfluxDB point per sensor whose topic matches the message topic. The point's measurement is the sensor's measurement, its only tag is `sensor_node` (the sensor's name), and its fields are `{"value": reading}`.

This project models the ingestion core of `mqtt2influx.py` as it is written. That core has five parts:

- **the sensor record `nodeConfig`**, whose three properties look the config entry up on every access;
- **`MQTTSource.parseSensors`**, which builds the sensor table;
- **the `on_connect` handler**, which subscribes the topics;
- **the `on_message` handler**, which routes and decodes each message;
- **`influxStore.store_msg`**, which builds the point and writes it.

The files:

- `PyJson.dfy` holds the Python values the code handles:
  - what `json.loads` returns, as a `Json` datatype;
  - the exceptions that can escape;
  - the three Python operations the code applies: `x[key]`, `for e in x` and `float(x)`.
- `NodeConfigs.dfy` holds the sensor record and the sensor table a configuration yields.
- `InfluxStores.dfy` holds `store_msg`. It is a pure function `Store` plus the class `InfluxStore`. The class logs every point handed to the database client, including points whose write then fails.
- `MqttSources.dfy` holds the class `MqttSource` and the functions its methods are proved against:
  - its field `sensors` is the sensor table;
  - its field `subscriptions` lists the topics handed to `subscribe`;
  - a ghost log, `storeCalls`, records every `store_msg` call;
  - `ParseSensors`, `OnConnect` and `OnMessage` are loops over the table, as in the source;
  - `OnConnect` is proved against `Subscriptions`, and `OnMessage` against `Dispatch`.
- `IngestionProperties.dfy` proves what the pipeline promises, over `Dispatch` and `Subscriptions`.
- `Scenarios.dfy` drives the classes end to end on a one-sensor configuration and proves the outcome.

Some things are inputs to the model, not code inside it:

- **`json.loads`** is a function `loads: Payload -> Option<Json>`. `None` stands for the `ValueError` that the handler catches.
- **The string parser behind `float(str)`** is a function `parse: string -> Option<real>`.
- **The database client's `write_points`** is a function `answer: nat -> WriteOutcome`. It says how the client answers its n-th write: `Written`, `ConnErr` for a `requests` `ConnectionError`, or `OtherErr` for any other exception.

Exceptions are values. `Result` and `Outcome` carry either a normal completion or the `Exc` that was raised.

In several places the code does not do what a reader might expect. The model follows the code:

- **Every match is stored.** Every sensor whose topic equals the message topic gets a `store_msg` call (lines 61-75). The first match does not win.
- **Decode failures raise.** They are not logged and dropped:
  - a payload that is not JSON leaves `payload` unbound, so line 73 raises `UnboundLocalError`;
  - a JSON object leaves `value` unbound, so line 75 raises;
  - a JSON list or `null` makes `float` raise `TypeError`;
  - a string that is not a number makes `float` raise `ValueError`.
- **Missing fields are not checked at start-up.** `parseSensors` stores each entry unchecked. A missing `topic`, `name` or `measurement` raises `KeyError` only when a handler reads it.
- **Write failures are not all absorbed.** Only a connection error is absorbed. Any other write failure propagates and ends the message handler. The remaining matching sensors are then not stored.
- **Duplicate topics are subscribed once per sensor** (lines 53-55).

## Model

| member | source | states |
|---|---|---|
| PyJson.Subscript | mqtt2influx.py:17-25 | `x[key]` yields the value only for a dict holding the key. A dict without it raises KeyError naming the key; any other value raises TypeError. |
| PyJson.Iterate | mqtt2influx.py:44 | `for e in x` visits a list's items, a dict's keys in order, or a string's characters. Any other value raises TypeError. |
| PyJson.Float | mqtt2influx.py:73 | `float` carries numbers and maps booleans to 1.0/0.0. Strings go through the parser, and a string it rejects raises ValueError. None, lists and dicts raise TypeError. |
| NodeConfigs.NodeConfig.Topic | mqtt2influx.py:17-19 | Reference definition: `sensor.topic` is the lookup `json["topic"]`, made again on every access. `PyJson.Subscript` states its cases; `NodeConfigs.SensorTable` ties it to the configuration entry. |
| NodeConfigs.NodeConfig.Name | mqtt2influx.py:20-22 | Reference definition: `sensor.name` is the lookup `json["name"]`. `PyJson.Subscript` states its cases; `NodeConfigs.SensorTable` ties it to the configuration entry. |
| NodeConfigs.NodeConfig.Measurement | mqtt2influx.py:23-25 | Reference definition: `sensor.measurement` is the lookup `json["measurement"]`. `PyJson.Subscript` states its cases; `NodeConfigs.SensorTable` ties it to the configuration entry. |
| NodeConfigs.Wrap | mqtt2influx.py:46 | One sensor record per entry, same length, same order, each wrapping its entry unchanged. |
| NodeConfigs.SensorEntries | mqtt2influx.py:44 | Reference definition: the entries `for sensor in config["sensors"]` visits, or the exception of the lookup or the iteration. `NodeConfigs.SensorTable` states its cases. |
| NodeConfigs.SensorTable | mqtt2influx.py:43-46 | The table is built exactly when `config["sensors"]` exists and is iterable; otherwise the KeyError for "sensors" or a TypeError is raised. On success the table is one record per element `for sensor in config["sensors"]` visits (list items, dict keys or characters), in order. For a list of entries, each record's topic, name and measurement are that entry's members. |
| MqttSources.MqttSource.ParseSensors | mqtt2influx.py:43-46 | On success it appends `SensorTable(config)` to the table and completes. On failure it raises that error and leaves the table unchanged. |
| InfluxStores.MakePoint | mqtt2influx.py:97-103 | The point has the given measurement, exactly one tag `sensor_node` equal to the sensor, and fields equal to the data unchanged. |
| InfluxStores.Store | mqtt2influx.py:93-110 | A point is handed to the client iff the data is a dict, and that point is `MakePoint`. Non-dict data raises ValueError ("Wrong data") without calling the client. For dict data the call completes iff the client's answer is not a failure other than a connection error, and otherwise raises the write error. |
| InfluxStores.StoreIgnoresTags | mqtt2influx.py:93-106 | Two calls that differ only in the `tags` argument behave identically. |
| InfluxStores.InfluxStore.StoreMsg | mqtt2influx.py:93-110 | Returns the outcome of `Store` for the client's answer to this write. It appends to the log of points handed to the client exactly the point `Store` hands it, if any. |
| MqttSources.ValueDict | mqtt2influx.py:73 | `{"value": x}` is a dict with the single key "value" holding the reading. |
| MqttSources.Decode | mqtt2influx.py:63-73 | Parsed dicts are recognised. Non-dicts become scalars exactly when `float` accepts them, and the reading is `float`'s result. A non-dict that `float` rejects raises exactly `float`'s exception. Unparsable payloads leave `payload` unbound. Lists and `null` raise TypeError. Nothing else can be raised. |
| MqttSources.CallFor | mqtt2influx.py:63-75 | A matching sensor gets a `store_msg` call iff the decode gave a scalar and its name and measurement are readable. The call passes the name, the measurement, tags `""` and `{"value": x}`. Exceptions come in line 75's evaluation order: a decode exception first, then the lookup of `name`, then of `measurement`, and for a readable sensor a dict payload's unbound `value`. |
| MqttSources.Dispatch | mqtt2influx.py:61-75 | Reference definition of the `on_message` scan: the store calls, the points handed to the client and the outcome. `MqttSources.MqttSource.OnMessage` is proved equal to it; `MqttSources.DispatchStep` states one step; the `IngestionProperties` lemmas `ExpectedCallsFollowMatching`, `UnmatchedTopicStoresNothing`, `FailedDecodeStoresNothing`, `FailedDecodeRaises`, `HandlerStoresOnlyDicts`, `ScalarStoresEveryMatch`, `ScalarFailsOnlyOnWrite` and `ScalarPassesIffWritesSucceed` state its properties. |
| MqttSources.DispatchStep | mqtt2influx.py:61-75 | One step of the message scan: a topic that raises ends the scan; a non-matching sensor is skipped; a matching sensor either raises or stores and then continues or ends. |
| MqttSources.Subscriptions | mqtt2influx.py:53-55 | Reference definition of the `on_connect` scan: the topics handed to `subscribe` and the outcome. `MqttSources.MqttSource.OnConnect` is proved equal to it; `MqttSources.SubscriptionsStep` states one step; `IngestionProperties.SubscribesEverySensor`, `SubscriptionsCountRoutes` and `ConfiguredTopicsSubscribed` state its properties. |
| MqttSources.SubscriptionsStep | mqtt2influx.py:53-55 | One step of the connect scan: a topic or name that raises ends it; otherwise the topic is subscribed and the scan continues. |
| MqttSources.MqttSource.OnConnect | mqtt2influx.py:51-55 | Appends to the subscriptions exactly the topics `Subscriptions(sensors)` lists, and ends as it does. |
| MqttSources.MqttSource.StoreMatch | mqtt2influx.py:63-75 | For one matching sensor: if `CallFor` raises, it raises that and changes nothing. Otherwise it logs the call, hands the client the point `Store` hands it, and ends as `Store` does. |
| MqttSources.MqttSource.OnMessage | mqtt2influx.py:57-75 | The store calls, the points handed to the client and the outcome are exactly those of `Dispatch` over the table, for the decoded payload and the client's answers from its current write count on. |
| IngestionProperties.ExpectedCallsFollowMatching | mqtt2influx.py:61-75 | The expected calls are one per matching sensor, in table order. Each matching sensor's topic equals the message topic, and its call carries its own name and measurement. |
| IngestionProperties.UnmatchedTopicStoresNothing | mqtt2influx.py:61-62 | A message on a topic no sensor carries (exact string equality) makes no call and hands the client no point. It raises only if some sensor's topic cannot be read. |
| IngestionProperties.FailedDecodeStoresNothing | mqtt2influx.py:63-75 | A payload that is not a scalar makes no call and hands the client no point. The handler completes iff no sensor matches and every topic is readable. |
| IngestionProperties.FailedDecodeRaises | mqtt2influx.py:61-75 | On a routable table with a matching sensor, a payload that is not a scalar makes the handler raise the decode failure: unbound `payload`, `float`'s exception, or unbound `value`. |
| IngestionProperties.HandlerStoresOnlyDicts | mqtt2influx.py:61-75 | For any table and payload, the points handed to the client are exactly the points of the calls made. Every call carries tags `""` and `{"value": x}` of a scalar reading, so `store_msg`'s "Wrong data" ValueError never escapes the handler. |
| IngestionProperties.ScalarStoresEveryMatch | mqtt2influx.py:61-75 | With a scalar reading and a routable table, the calls made are a prefix of the expected calls (one per matching sensor, duplicates included, in order). If the handler completes, it made all of them. |
| IngestionProperties.ScalarFailsOnlyOnWrite | mqtt2influx.py:107-110 | With a scalar reading and a routable table, the handler raises only a write error. That error comes from its last call's write, and every earlier write was absorbed or succeeded. |
| IngestionProperties.ScalarPassesIffWritesSucceed | mqtt2influx.py:61-75 | With a scalar reading and a routable table, the handler completes iff the client fails none of the expected writes with anything but a connection error. |
| IngestionProperties.SubscribesEverySensor | mqtt2influx.py:53-55 | The connect handler subscribes each sensor's topic in table order. It completes iff every sensor has a readable topic and name, and then it has subscribed exactly one topic per sensor. Otherwise it stops at the first sensor lacking one, with that lookup's exception. |
| IngestionProperties.SubscriptionsCountRoutes | mqtt2influx.py:53-62 | After a complete connect, each topic is subscribed as many times as there are sensors a message on it is routed to, duplicates included. |
| IngestionProperties.ConfiguredTopicsSubscribed | mqtt2influx.py:43-55 | For a configuration whose "sensors" member is a list, connecting completes iff every entry has "topic" and "name". It then subscribes every entry's "topic", in list order. |
| Scenarios.TemperatureReading | mqtt2influx.py:43-75 | Take the sensor `sensors/temp1`/`temp1`/`temperature` and the payload `23.7`, when the client answers the write with success or a connection error. The handler subscribes that topic once and hands the client exactly the point `temperature`, `{sensor_node: temp1}`, `{value: 23.7}`. |
| Scenarios.DictReading | mqtt2influx.py:63-75 | The payload `{"temp": 21.0, "humidity": 55.0}`, which `json.loads` turns into an object, raises UnboundLocalError for `value` on the sensor's topic, and no point is handed to the client. |
| Scenarios.UnknownTopic | mqtt2influx.py:61-62 | A message on a topic no sensor carries completes, and no point is handed to the client. |

A table is *routable* for a topic (`IngestionProperties.Routable`) when every entry's topic can be read and every entry whose topic is that topic also has a name and a measurement. That is all `on_message` reads of the table; entries that do not match may lack a name or a measurement.

Helpers without rows: `InfluxStores.HandedPoints` turns a `store_msg` effect into the list of points handed to the client, and `MqttSources.DecodeFailure` names the exception a failed decode raises at a readable sensor. `InfluxStores.Store`, `MqttSources.CallFor` and `IngestionProperties.FailedDecodeRaises` carry what they encode.

## Left out

- `main` (lines 114-143): argument parsing, logging configuration and reading `config.json` from disk are process set-up and file I/O. The configuration is a parameter of `ParseSensors`.
- `MQTTSource.__init__` (lines 33-41): the host and port (including `int(port)`) only reach the transport. The model's constructor starts with an empty table; `ParseSensors` is then called on it.
- `setupMQTT`'s client construction and handler registration (lines 48-49, 78-79), and `start` with `connect`/`loop_forever` (lines 81-83), are network transport and an event loop. A subscription is recorded as a topic appended to `subscriptions`.
- `influxStore.__init__` and the client's internals (lines 89-91, 108): the client is the oracle `answer`, and `points` logs what it is handed.
- `json.loads` and the string parsing inside `float` are library code. They are the oracles `loads` and `parse`, so the model does not fix which byte strings are valid JSON or which strings are numbers.
- Floating point: readings are `real`. The model does not capture rounding, or the `OverflowError` that `float` raises on a JSON integer too large for a double.
- `RecursionError` from `json.loads` on deeply nested input, and the transport's own checks on what `subscribe` accepts (for example a topic that is not a string), are library behaviour. They are not modelled.
- All logger calls (lines 39, 45, 52, 54, 58-59, 95, 104, 110) are output only.
- `PyJson.Json`: a dict's `keys` and `fields` are not required to agree. Every value `json.loads` returns has them agree, and no property here depends on it.
- `MqttSources.MqttSource.storeCalls` is a ghost log. The source keeps no record of its `store_msg` calls; the log exists to state what `OnMessage` does.
