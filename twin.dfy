/**
 * The twin service: the subscriber that keeps the latest known condition of
 * every road, and the read side over it (`/state`, `/state/{road_id}`,
 * `/metrics`).
 *
 * `Step` is the specification of one delivery and `Replay` of a run of
 * deliveries in order; `TwinStore` is the service's mutable state, proved
 * against `Step`.
 */
module Twin {
  import opened Wrappers
  import opened Literal

  /** The record kept per road: `{congestion, timestamp, last_sensor}`. */
  datatype RoadState = RoadState(congestion: Value, timestamp: Value, lastSensor: Value)

  /** The write one message asks for: replace the entry of `road` by `entry`. */
  datatype Update = Update(road: Value, entry: RoadState)

  /** The twin's whole state: the per-road map and the processed-event counter. */
  datatype TwinState = TwinState(roads: map<Value, RoadState>, totalEvents: nat)

  /** The default of an optional field that is absent from a message. */
  const UnknownDefault: Value := Str("unknown")

  /** `dict.get(key, default)` on a decoded message. */
  function Get(m: map<Value, Value>, key: string, default: Value): (v: Value)
    ensures Str(key) in m ==> v == m[Str(key)]
    ensures Str(key) !in m ==> v == default
  {
    if Str(key) in m then m[Str(key)] else default
  }

  /**
   * What a decoded message asks of the state. A message is dropped when it did
   * not decode, is not a dictionary, or lacks `road_id` or `congestion`; a
   * missing `sensor_id` or `timestamp` becomes `"unknown"`.
   */
  function Interpret(msg: Option<Literal>): (u: Option<Update>)
    ensures u.Some? <==>
      msg.Some? && msg.value.Dict? && Str("road_id") in msg.value.entries && Str("congestion") in msg.value.entries
    ensures u.Some? ==>
      var m := msg.value.entries;
      && u.value.road == m[Str("road_id")]
      && u.value.entry.congestion == m[Str("congestion")]
      && (Str("sensor_id") in m ==> u.value.entry.lastSensor == m[Str("sensor_id")])
      && (Str("sensor_id") !in m ==> u.value.entry.lastSensor == UnknownDefault)
      && (Str("timestamp") in m ==> u.value.entry.timestamp == m[Str("timestamp")])
      && (Str("timestamp") !in m ==> u.value.entry.timestamp == UnknownDefault)
  {
    match msg
    case Some(Dict(m)) =>
      if Str("road_id") in m && Str("congestion") in m then
        Some(Update(m[Str("road_id")],
                    RoadState(m[Str("congestion")], Get(m, "timestamp", UnknownDefault), Get(m, "sensor_id", UnknownDefault))))
      else None
    case _ => None
  }

  /** The update a payload asks for, after decoding. */
  function UpdateOf(payload: string): Option<Update> {
    Interpret(ParseLiteral(payload))
  }

  /**
   * A payload whose first value is a string literal broken by a raw line
   * feed, carriage return or NUL, before any closing quote or escape, does not
   * decode, so the message is dropped.
   */
  lemma RawBreakDropped(key: Value, q: char, s: string, i: nat)
    requires IsQuote(q) && i < |s| && (s[i] == '\n' || s[i] == '\r' || s[i] == '\0')
    requires forall j :: 0 <= j < i ==> s[j] != q && s[j] != '\\'
    ensures UpdateOf("{" + (ValueText(key) + (": " + ([q] + s)))) == None
  {
    var v := [q] + s;
    var r1 := ": " + v;
    var body := ValueText(key) + r1;
    assert v[1..] == s;
    RawBreakRejected(s, q, i);
    ValueRoundTrip(key, r1);
    assert r1[2..] == v;
    assert ParseEntry(body) == None;
    assert ("{" + body)[1..] == body;
  }

  /**
   * The effect of one message on the state. An accepted message replaces its
   * road's entry in full and counts once; every other road keeps its entry; no
   * road disappears; a dropped message changes nothing at all.
   */
  function Apply(s: TwinState, u: Option<Update>): (r: TwinState)
    ensures s.roads.Keys <= r.roads.Keys
    ensures u.None? ==> r == s
    ensures u.Some? ==>
      && r.roads.Keys == s.roads.Keys + {u.value.road}
      && r.roads[u.value.road] == u.value.entry
      && r.totalEvents == s.totalEvents + 1
      && (forall k :: k in s.roads && k != u.value.road ==> r.roads[k] == s.roads[k])
  {
    match u
    case None => s
    case Some(w) => TwinState(s.roads[w.road := w.entry], s.totalEvents + 1)
  }

  /** One delivery of a payload: decode it, then apply what it asks. */
  function Step(s: TwinState, payload: string): TwinState {
    Apply(s, UpdateOf(payload))
  }

  /** The decoded form of each payload of a run, in delivery order. */
  function UpdatesOf(payloads: seq<string>): (us: seq<Option<Update>>)
    ensures |us| == |payloads|
  {
    if payloads == [] then [] else [UpdateOf(payloads[0])] + UpdatesOf(payloads[1..])
  }

  /** Messages applied one after the other, in delivery order. */
  function ApplyAll(s: TwinState, us: seq<Option<Update>>): TwinState
    decreases |us|
  {
    if us == [] then s else ApplyAll(Apply(s, us[0]), us[1..])
  }

  /** A run of deliveries. */
  function Replay(s: TwinState, payloads: seq<string>): TwinState {
    ApplyAll(s, UpdatesOf(payloads))
  }

  /** How many of the messages are accepted. */
  function AcceptedCount(us: seq<Option<Update>>): nat {
    if us == [] then 0 else (if us[0].Some? then 1 else 0) + AcceptedCount(us[1..])
  }

  /** The roads named by the accepted messages. */
  function RoadsOf(us: seq<Option<Update>>): set<Value> {
    if us == [] then {}
    else (if us[0].Some? then {us[0].value.road} else {}) + RoadsOf(us[1..])
  }

  /** The entry carried by the LAST accepted message for road `k`, if any. */
  function LastEntry(us: seq<Option<Update>>, k: Value): Option<RoadState> {
    if us == [] then None
    else
      match LastEntry(us[1..], k)
      case Some(e) => Some(e)
      case None => if us[0].Some? && us[0].value.road == k then Some(us[0].value.entry) else None
  }

  // ---------------------------------------------------------------------------
  // Properties of runs of deliveries
  // ---------------------------------------------------------------------------

  /**
   * Last write by delivery order wins: of two accepted messages for one road,
   * the second's entry stays, whatever timestamps the two carry.
   */
  lemma LastDeliveredWins(s: TwinState, u1: Update, u2: Update)
    requires u1.road == u2.road
    ensures u2.road in ApplyAll(s, [Some(u1), Some(u2)]).roads
    ensures ApplyAll(s, [Some(u1), Some(u2)]).roads[u2.road] == u2.entry
    ensures ApplyAll(s, [Some(u1), Some(u2)]).totalEvents == s.totalEvents + 2
  {
    var us := [Some(u1), Some(u2)];
    var mid := Apply(s, Some(u1));
    assert ApplyAll(s, us) == ApplyAll(mid, us[1..]);
    assert us[1..][0] == Some(u2) && us[1..][1..] == [];
    assert ApplyAll(mid, us[1..]) == ApplyAll(Apply(mid, Some(u2)), []);
  }

  /** The counter rises by one per accepted message and by nothing else. */
  lemma {:induction false} ReplayCount(s: TwinState, us: seq<Option<Update>>)
    ensures ApplyAll(s, us).totalEvents == s.totalEvents + AcceptedCount(us)
    decreases |us|
  {
    if us != [] {
      ReplayCount(Apply(s, us[0]), us[1..]);
    }
  }

  /** The roads after a run are those before it plus those the run named; none is removed. */
  lemma {:induction false} ReplayKeys(s: TwinState, us: seq<Option<Update>>)
    ensures ApplyAll(s, us).roads.Keys == s.roads.Keys + RoadsOf(us)
    decreases |us|
  {
    if us != [] {
      ReplayKeys(Apply(s, us[0]), us[1..]);
    }
  }

  /**
   * After a run, a road's entry is the one of the last accepted message for it,
   * whatever the timestamps inside the messages, or its entry before the run
   * if the run did not name it.
   */
  lemma {:induction false} ReplayEntry(s: TwinState, us: seq<Option<Update>>, k: Value)
    ensures k in ApplyAll(s, us).roads <==> k in s.roads || LastEntry(us, k).Some?
    ensures LastEntry(us, k).Some? ==> ApplyAll(s, us).roads[k] == LastEntry(us, k).value
    ensures LastEntry(us, k).None? && k in s.roads ==> ApplyAll(s, us).roads[k] == s.roads[k]
    decreases |us|
  {
    if us != [] {
      ReplayEntry(Apply(s, us[0]), us[1..], k);
    }
  }

  lemma {:induction false} ReplayAppend(s: TwinState, a: seq<Option<Update>>, b: seq<Option<Update>>)
    ensures ApplyAll(s, a + b) == ApplyAll(ApplyAll(s, a), b)
    decreases |a|
  {
    if a == [] {
      assert a + b == b;
    } else {
      assert (a + b)[0] == a[0];
      assert (a + b)[1..] == a[1..] + b;
      ReplayAppend(Apply(s, a[0]), a[1..], b);
    }
  }

  /** A message that is dropped, wherever it is delivered, affects no road and no counter. */
  lemma DroppedIsInvisible(s: TwinState, before: seq<Option<Update>>, after: seq<Option<Update>>)
    ensures ApplyAll(s, before + [None] + after) == ApplyAll(s, before + after)
  {
    ReplayAppend(s, before + [None], after);
    ReplayAppend(s, before, [None]);
    var dropped: seq<Option<Update>> := [None];
    assert dropped[1..] == [];
    ReplayAppend(s, before, after);
  }

  /** From the empty start, the roads known are exactly the distinct roads delivered. */
  lemma ActiveRoadsAreRoadsDelivered(us: seq<Option<Update>>)
    ensures ApplyAll(TwinState(map[], 0), us).roads.Keys == RoadsOf(us)
    ensures ApplyAll(TwinState(map[], 0), us).totalEvents == AcceptedCount(us)
  {
    ReplayKeys(TwinState(map[], 0), us);
    ReplayCount(TwinState(map[], 0), us);
  }

  // ---------------------------------------------------------------------------
  // Metrics
  // ---------------------------------------------------------------------------

  /** The part of `/metrics` that is not floating point. */
  datatype Metrics = Metrics(activeRoads: nat, activeSensors: nat, eventsTotal: nat)

  /** Python truthiness of a field value. */
  predicate Truthy(v: Value) {
    match v
    case Int(n) => n != 0
    case Str(t) => t != ""
  }

  /** The truthy `last_sensor` values of the roads in `keys`. */
  function SensorsOf(roads: map<Value, RoadState>, keys: set<Value>): set<Value> {
    set k | k in keys && k in roads && Truthy(roads[k].lastSensor) :: roads[k].lastSensor
  }

  /** The distinct truthy `last_sensor` values across all roads. */
  function ActiveSensors(roads: map<Value, RoadState>): set<Value> {
    SensorsOf(roads, roads.Keys)
  }

  /** Each road contributes at most one sensor, so there are never more sensors than roads. */
  lemma {:induction false} SensorsAtMostKeys(roads: map<Value, RoadState>, keys: set<Value>)
    ensures |SensorsOf(roads, keys)| <= |keys|
    decreases keys
  {
    if keys != {} {
      var k :| k in keys;
      var rest := keys - {k};
      SensorsAtMostKeys(roads, rest);
      var smaller := SensorsOf(roads, rest);
      if k in roads && Truthy(roads[k].lastSensor) {
        assert SensorsOf(roads, keys) == smaller + {roads[k].lastSensor};
      } else {
        assert SensorsOf(roads, keys) == smaller;
      }
    }
  }

  lemma SensorsAtMostRoads(roads: map<Value, RoadState>)
    ensures |ActiveSensors(roads)| <= |roads|
  {
    SensorsAtMostKeys(roads, roads.Keys);
  }

  // ---------------------------------------------------------------------------
  // The service state
  // ---------------------------------------------------------------------------

  /** The module-level `state` dictionary and `total_events` counter of the twin. */
  class TwinStore {
    var roads: map<Value, RoadState>
    var totalEvents: nat

    constructor ()
      ensures roads == map[] && totalEvents == 0
    {
      roads := map[];
      totalEvents := 0;
    }

    function Model(): TwinState
      reads this
    {
      TwinState(roads, totalEvents)
    }

    /**
     * `on_message`: decode the payload, write the road's entry and count the
     * event. `latencyOf` stands for parsing the timestamp and subtracting it
     * from the clock; its answer is only logged, so it cannot change the
     * state whatever it returns.
     */
    method OnMessage<L>(payload: string, latencyOf: Value -> Option<L>) returns (latency: Option<L>)
      modifies this
      ensures Model() == Step(old(Model()), payload)
      ensures latency == match UpdateOf(payload)
                         case Some(u) => latencyOf(u.entry.timestamp)
                         case None => None
    {
      latency := None;
      var decoded := ParseLiteral(payload);
      if decoded.None? || decoded.value.Scalar? {
        return;
      }
      var event := decoded.value.entries;
      var sensorId := Get(event, "sensor_id", UnknownDefault);
      if Str("road_id") !in event {
        return;
      }
      var roadId := event[Str("road_id")];
      if Str("congestion") !in event {
        return;
      }
      var congestion := event[Str("congestion")];
      var timestamp := Get(event, "timestamp", UnknownDefault);
      latency := latencyOf(timestamp);
      roads := roads[roadId := RoadState(congestion, timestamp, sensorId)];
      totalEvents := totalEvents + 1;
    }

    /** `GET /state`: the whole map. */
    method GetState() returns (snapshot: map<Value, RoadState>)
      ensures snapshot == roads
    {
      snapshot := roads;
    }

    /** `GET /state/{road_id}`: the road's entry, or the empty record (None) for an unknown road. */
    method GetRoadState(roadId: string) returns (entry: Option<RoadState>)
      ensures entry.Some? <==> Str(roadId) in roads
      ensures entry.Some? ==> entry.value == roads[Str(roadId)]
    {
      if Str(roadId) in roads {
        entry := Some(roads[Str(roadId)]);
      } else {
        entry := None;
      }
    }

    /** `GET /metrics`: the road count, the distinct-sensor count and the event counter. */
    method GetMetrics() returns (m: Metrics)
      ensures m.activeRoads == |roads|
      ensures m.activeSensors == |ActiveSensors(roads)|
      ensures m.eventsTotal == totalEvents
      ensures m.activeSensors <= m.activeRoads
    {
      var sensors: set<Value> := {};
      var pending := roads.Keys;
      while pending != {}
        invariant pending <= roads.Keys
        invariant sensors == SensorsOf(roads, roads.Keys - pending)
        decreases pending
      {
        var k :| k in pending;
        var s := roads[k].lastSensor;
        if Truthy(s) {
          sensors := sensors + {s};
        }
        pending := pending - {k};
      }
      assert roads.Keys - pending == roads.Keys;
      SensorsAtMostRoads(roads);
      m := Metrics(|roads|, |sensors|, totalEvents);
    }
  }
}
