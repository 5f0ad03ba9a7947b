# Road-network digital twin: ingestion, twin state and routing

This project models the sequential core of a traffic "digital twin". Sensors
post congestion readings to an ingestion gateway. The gateway stamps each
reading with a timestamp, renders it as text and publishes it on an MQTT
topic. The twin service receives every message and keeps the latest record per
road. A routing service reads the twin's state and estimates a travel time.
Every transport (HTTP, MQTT, clock) is replaced by an explicit input.

Modules, one file each:

- `Wrappers` (`wrappers.dfy`): the `Option` type.
- `Literal` (`literal.dfy`): the payload format. `DictText` renders a flat
  dictionary as Python's `str()` does, quoting each string as `repr` does.
  `ParseLiteral` reads a payload as `ast.literal_eval` does. It reads flat
  dictionaries and lone scalars of `int` and `str`. Every text it accepts
  means the same to Python, except an int of more than 4300 digits (see
  "Left out"). The round-trip lemmas prove that reading back a
  rendered dictionary gives the dictionary it denotes.
- `Ingestion` (`ingestion.dfy`, for `ingestion/main.py`): `Reading` (the `IngestedEvent` body),
  `StampedEvent`, `Validate` (the request-model check), `EncodeEvent` and the
  `Gateway` class, whose `eventCount` field is the module-level `event_count`.
  The broker's answer to `publish.single` is the `PublishOutcome` parameter.
  The `utcnow().isoformat()` timestamp is an opaque `now` string.
- `Twin` (`twin.dfy`, for `twin/main.py`): `RoadState` (the per-road record), `Interpret`
  (what a decoded message asks for), `Apply`/`Step` (one delivery) and
  `ApplyAll`/`Replay` (a run of deliveries, in delivery order), with lemmas
  about runs. The `TwinStore` class holds the module-level `state` dictionary
  (`roads`) and `total_events` counter (`totalEvents`). Its methods are
  `OnMessage`, `GetState`, `GetRoadState` and `GetMetrics`, and `OnMessage`
  is proved against `Step`. The latency that `on_message` computes from the
  timestamp and the clock is a caller-supplied oracle `latencyOf`. Its answer
  is returned, as it is only logged, and the new state does not depend on it.
- `Routing` (`routing.dfy`, for `routing/main.py`): `GetRoute`, a pure function of the fetched
  state. The fetch failing is the `FetchFailed` input. Times are integer
  tenths of a minute, so `round(10 + congestion * 0.1, 1)` minutes is
  `100 + congestion` tenths. An int congestion of magnitude 2^1024 - 2^970 or
  more does not convert to a float, and the reply is an error.
- `Pipeline` (`pipeline.dfy`): how the services connect. `JsonView` is the `/state` body as the
  routing service receives it. The end-to-end lemmas start from a reading and
  end with the twin's record, its counters and the route estimate.
  `IngestAndQuery` drives the two classes in sequence.

The model follows the code as written:

- The gateway checks field types only. There is no non-empty check on the ids
  and no range check on `congestion`.
- The twin's record has no latency field. The latency is only printed.
- An unknown road gives an empty record. This is `None` in the model.
- `active_sensors` counts only truthy `last_sensor` values. An empty string or
  `0` is not counted.
- An `{error}` reply from the routing service covers a failed fetch, and also
  a record that lacks `congestion`, holds a non-numeric one, or holds an int
  too large for a float.
- Nothing is locked. The state and the counters are modelled sequentially.

## Model

| member | source | states |
|---|---|---|
| `Literal.NatText` | ingestion/main.py:45-48 | the decimal text of a non-negative congestion is all digits, non-empty, and starts with `0` only for the number 0 |
| `Literal.ToMapHasKeys` | twin/main.py:46 | every key a dict display lists is a key of the dictionary it evaluates to |
| `Literal.ToMapOnlyKeys` | twin/main.py:46 | the dictionary a display evaluates to has no key the display does not list |
| `Literal.ToMapLastWins` | twin/main.py:46 | a key listed more than once is bound to the value of its last occurrence |
| `Literal.DictText` | ingestion/main.py:48 | `str()` of a dict is enclosed in braces and is exactly `{}` when the dict is empty; `DictRoundTrip` is its inverse |
| `Literal.ParseLiteral` | twin/main.py:46 | the empty payload is an error; `{}` is the empty dictionary; a dictionary comes only from text that opens with `{`, and such text is never read as a scalar |
| `Literal.CharRoundTrip` | ingestion/main.py:48 | every character, escaped as `repr` escapes it inside either kind of quotes, reads back as itself and is never taken for the closing quote |
| `Literal.RawBreakRejected` | twin/main.py:46 | a raw line feed, carriage return or NUL at any position of a string literal's body, with no closing quote or escape before it, makes the literal an error |
| `Literal.QuotedRoundTrip` | ingestion/main.py:48 | reading a string's escaped body back, in either kind of quotes, stops at its closing quote and yields the original string and the text after it |
| `Literal.StrRoundTrip` | ingestion/main.py:48 | `literal_eval` of `repr` of any string, in the quotes `repr` picks, is that string |
| `Literal.NegativeRoundTrip` | ingestion/main.py:45-48 | reading back `-` followed by the digits of a negative congestion yields that negative int and the rest |
| `Literal.UnsignedRoundTrip` | ingestion/main.py:45-48 | reading back the digits of a non-negative congestion yields that int and the rest |
| `Literal.IntRoundTrip` | ingestion/main.py:48 | reading the text of any int (negative ones too) back, followed by a non-digit, yields that int and the rest |
| `Literal.EntryRoundTrip` | ingestion/main.py:48 | reading back one rendered `key: value` entry yields that key and value and the text after it |
| `Literal.EntriesRoundTrip` | ingestion/main.py:48 | reading the rendered entries of a non-empty dict back, up to `}`, yields exactly those entries in order and the rest |
| `Literal.DictRoundTrip` | twin/main.py:46 | `literal_eval(str(d))` is the dictionary `d` denotes, for every flat dict of ints and strings |
| `Literal.ScalarRoundTrip` | twin/main.py:46 | `literal_eval(repr(v))` of a lone int or string is that scalar, not a dictionary |
| `Literal.FourEntryRoundTrip` | ingestion/main.py:42-48 | a rendered four-entry dict reads back as exactly the bindings of its display |
| `Ingestion.Validate` | ingestion/main.py:24-27 | a body is accepted exactly when `sensor_id` and `road_id` are strings and `congestion` is an int, with no range check; the reading holds those values |
| `Ingestion.DecodeEvent` | ingestion/main.py:42-48 | the published payload reads back as a dict with exactly the four keys `sensor_id`, `road_id`, `congestion`, `timestamp`, holding the input's three fields unchanged and the stamp |
| `Ingestion.Gateway.constructor` | ingestion/main.py:30 | the gateway starts with a zero count |
| `Ingestion.Gateway.Ingest` | ingestion/main.py:42-68 | the payload is the rendered stamped event; a delivered publish answers `published` and counts one; a refused one answers `mqtt_error` with the error text and leaves the count; the throughput report fires exactly when a delivered publish makes the count a multiple of 1000 |
| `Ingestion.Gateway.Post` | ingestion/main.py:34-35 | a body that fails validation is rejected with nothing published and the count unchanged; a valid one behaves as `Ingest` |
| `Twin.Interpret` | twin/main.py:45-51 | a message is accepted exactly when it decoded to a dict holding `road_id` and `congestion`; the record takes `congestion`, and `sensor_id` and `timestamp` when present, `"unknown"` when absent |
| `Twin.RawBreakDropped` | twin/main.py:44-51 | a payload whose first value is a string literal broken by a raw line feed, carriage return or NUL, such as `{'road_id': 'R<LF>', 'congestion': 1}`, does not decode, so `on_message` drops it |
| `Twin.Apply` | twin/main.py:63-69 | an accepted message replaces its road's record in full and counts once, every other road keeps its record and no road is removed; a dropped message changes nothing |
| `Twin.LastDeliveredWins` | twin/main.py:63-67 | of two accepted messages for one road, the second's record remains, whatever timestamps they carry, and the counter rose by two |
| `Twin.ReplayCount` | twin/main.py:69 | after any run the counter rose by exactly the number of accepted messages |
| `Twin.ReplayKeys` | twin/main.py:63 | after any run the roads are those before plus those the accepted messages named; none is ever removed |
| `Twin.ReplayEntry` | twin/main.py:63-67 | after any run a road's record is the one carried by the last accepted message for it, or the old record if the run did not name it |
| `Twin.ReplayAppend` | twin/main.py:42-83 | delivering `a` then `b` is delivering `a` and then delivering `b` from the resulting state |
| `Twin.DroppedIsInvisible` | twin/main.py:82-83 | a message that is dropped, anywhere in a run, leaves the outcome of the run the same as without it |
| `Twin.ActiveRoadsAreRoadsDelivered` | twin/main.py:129 | from the empty start, the roads known are exactly the distinct roads delivered, and the counter is the number of accepted messages |
| `Twin.SensorsAtMostRoads` | twin/main.py:122-130 | there are never more distinct active sensors than roads |
| `Twin.TwinStore.constructor` | twin/main.py:26-30 | the twin starts with no roads and a zero counter |
| `Twin.TwinStore.OnMessage` | twin/main.py:42-83 | the new state is `Step` of the old state and the payload, independent of the latency oracle; the latency is the oracle's answer for the stored timestamp on acceptance and none on a drop |
| `Twin.TwinStore.GetState` | twin/main.py:102-104 | returns the whole road map |
| `Twin.TwinStore.GetRoadState` | twin/main.py:107-109 | returns the road's record when it is known and the empty record otherwise |
| `Twin.TwinStore.GetMetrics` | twin/main.py:112-134 | `active_roads` is the number of roads, `active_sensors` the number of distinct truthy `last_sensor` values and at most `active_roads`, `events_total` the counter |
| `Routing.GetRoute` | routing/main.py:21-41 | a failed fetch is an error; an absent or empty record is `known: False`; a record with an int `congestion` within float range yields that congestion and `100 + congestion` tenths; a record without `congestion` is a distinct error, a non-numeric one is reported with its value, and an int beyond float range is reported as too large with its value |
| `Routing.EstimateMonotone` | routing/main.py:33 | within float range, a higher congestion never gives a lower estimate |
| `Routing.TooLargeIsError` | routing/main.py:33-41 | an int congestion of magnitude 2^1024 - 2^970 or more makes `congestion * 0.1` raise, so the reply is an error |
| `Routing.FreeRoadTakesBaseTime` | routing/main.py:8 | congestion 0 gives the base time, 10.0 minutes |
| `Routing.Congestion40` | routing/main.py:33-38 | congestion 40 gives 14.0 minutes, echoing the road id and the congestion |
| `Pipeline.JsonView` | routing/main.py:27-28 | the state as the routing service decodes it has one record per string road id, with the fields `congestion`, `timestamp` and `last_sensor` |
| `Pipeline.InterpretEvent` | twin/main.py:48-51 | the dictionary of a published event is accepted, with the event's road, congestion, timestamp and sensor taken in place of the defaults |
| `Pipeline.DeliverEvent` | twin/main.py:46-51 | the twin turns a published event into a write of the road's record with the event's congestion, timestamp and sensor |
| `Pipeline.WriteCount` | twin/main.py:63-67 | writing a road's record adds one road to the count exactly when the road is new |
| `Pipeline.SensorActive` | twin/main.py:123-126 | a road whose record names a non-empty sensor makes that sensor count as active |
| `Pipeline.RouteOfEntry` | routing/main.py:28-41 | a road whose record holds an int congestion is routed by that congestion: `100 + congestion` tenths within float range, the too-large error beyond it |
| `Pipeline.ApplyReading` | twin/main.py:63-69 | applying a reading's write stores its congestion, stamp and sensor, counts one, adds a road only if it is new, makes a non-empty sensor active and yields the route of its congestion |
| `Pipeline.IngestThenRoute` | ingestion/main.py:42-48 | delivering what the gateway published for a reading has the effect of `ApplyReading`: the road's record and the route follow from the reading alone |
| `Pipeline.ExampleR42` | routing/main.py:33-38 | sensor S1 reporting 40 on R42 leaves that record on R42 and a route of 14.0 minutes |
| `Pipeline.IngestAndQuery` | ingestion/main.py:50-65 | ingesting with a delivered publish and delivering the payload answers `published` and advances the gateway's count by one; the twin's new state is the old one with the reading's record written, so every other road keeps its record and the counter rises by one; the road query and the route then reflect the reading |

## Left out

- MQTT and HTTP plumbing are not modelled: the MQTT client, `on_connect`, `start_mqtt`, `publish.single`, `requests.get`, the FastAPI apps and CORS. Each is replaced by an input: the payload text, the `PublishOutcome` or the `Fetch` outcome.
- Concurrency is not modelled. The MQTT loop thread and the request threads share the unlocked state and counters; the model runs the operations one at a time.
- Floating point is not modelled: the latency in seconds, `events_per_sec`, `uptime_seconds` with its `1e-6` floor, and the gateway's rate. The travel time is exact integer tenths. Python's float result can fall nearer another tenth once the congestion's magnitude is of the order of 10^15 or more. The one float failure that is modelled is the overflow of converting an int of magnitude 2^1024 - 2^970 or more, which `GetRoute` reports as an error.
- Clocks: the timestamp stamped by the gateway is an input string, and the twin's latency is the `latencyOf` oracle, since it depends on `datetime` parsing and the clock.
- `Literal.DictText`: escapes ASCII as `repr` does (the chosen quote, `\`, `\n`, `\r`, `\t` and `\xhh` for the other control characters) but writes characters above U+007F raw. Python's `repr` escapes the non-printable ones among them (such as U+00A0) as `\x`, `\u` or `\U`. The model does not carry Unicode's printability table. Both texts read back to the same string, so the twin stores the same record either way.
- `Literal.ParseLiteral`: reads less than `ast.literal_eval` does, because the model does not need the rest of Python's literal syntax. It rejects spacing other than the `, ` and `: ` that `str()` writes (leading or trailing blanks included), escapes other than `\\`, `\'`, `\"`, `\n`, `\r`, `\t` and `\xhh` (octal escapes, `\a`, `\u`, `\N{...}`, line continuations), string prefixes, adjacent literals written to be joined, a trailing comma (`{'a': 1,}`), enclosing parentheses, a trailing `# comment`, a leading `+`, underscores in numbers, hexadecimal, octal and binary ints, floats, booleans, `None`, tuples and nested containers. The model drops such a payload where Python applies it. Apart from the over-long ints of the next line, what the parser accepts, Python reads the same way.
- The 4300-digit limit on int text (Python 3.11 on) is not modelled. `NatText` renders and `ParseNat` reads ints of any length. Python's `str()` raises for such an int before the gateway publishes, and `literal_eval` raises on a hand-written payload that holds one.
- The UTF-8 decoding of the MQTT payload bytes is not modelled: the payload is taken as text.
- Python's request-model coercions (such as `"40"` for an int field) are not modelled: `Validate` requires the exact JSON types.
- `Pipeline.JsonView`: covers only string road ids. The JSON rendering of a non-string key that the twin could store from a hand-written message is not modelled.
- `Routing.GetRoute`: the `{error}` reply carries an error kind rather than the text of the Python exception.
- Logging is not modelled beyond the every-1000th condition.
- `edge/main.py` forwards readings unchanged, and the sensor simulators generate random load. Neither is part of this model.
