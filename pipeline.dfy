/**
 * The path from one reading to a route estimate: the gateway stamps and
 * renders it, the bus carries the payload unchanged, the twin applies it, and
 * the routing service reads the twin's state as JSON.
 */
module Pipeline {
  import opened Wrappers
  import opened Literal
  import opened Ingestion
  import opened Twin
  import opened Routing

  /** One road record as the `/state` JSON body carries it. */
  function EntryJson(e: RoadState): map<string, Value> {
    map["congestion" := e.congestion, "timestamp" := e.timestamp, "last_sensor" := e.lastSensor]
  }

  /** The road ids of the state that are strings. */
  function StringRoads(roads: map<Value, RoadState>): set<string> {
    set v | v in roads && v.Str? :: v.s
  }

  /** The `/state` body as the routing service decodes it. */
  function JsonView(roads: map<Value, RoadState>): (snapshot: Snapshot)
    ensures forall k :: k in snapshot <==> Str(k) in roads
    ensures forall k :: k in snapshot ==> snapshot[k] == EntryJson(roads[Str(k)])
  {
    assert forall k :: Str(k) in roads ==> k in StringRoads(roads);
    map k | k in StringRoads(roads) && Str(k) in roads :: EntryJson(roads[Str(k)])
  }

  /** What the twin asks of the dictionary of a published event. */
  lemma InterpretEvent(e: StampedEvent)
    ensures Interpret(Some(Dict(EventDict(e)))) ==
      Some(Update(Str(e.roadId), RoadState(Int(e.congestion), Str(e.timestamp), Str(e.sensorId))))
  {
  }

  /** What the twin makes of a payload the gateway published. */
  lemma DeliverEvent(e: StampedEvent)
    ensures UpdateOf(EncodeEvent(e)) ==
      Some(Update(Str(e.roadId), RoadState(Int(e.congestion), Str(e.timestamp), Str(e.sensorId))))
  {
    DecodeEvent(e);
    InterpretEvent(e);
  }

  /** The update the twin derives from reading `r` stamped at `now`. */
  function ReadingUpdate(r: Reading, now: string): Update {
    Update(Str(r.roadId), RoadState(Int(r.congestion), Str(now), Str(r.sensorId)))
  }

  /** Writing a road's entry adds one road exactly when the road is new. */
  lemma WriteCount(roads: map<Value, RoadState>, k: Value, e: RoadState)
    ensures |roads[k := e]| == |roads| + (if k in roads then 0 else 1)
  {
    if k in roads {
      assert roads[k := e].Keys == roads.Keys;
    } else {
      assert roads[k := e].Keys == roads.Keys + {k};
    }
  }

  /** A road whose entry names a non-empty sensor makes that sensor active. */
  lemma SensorActive(roads: map<Value, RoadState>, k: Value, sensor: string)
    requires k in roads && roads[k].lastSensor == Str(sensor) && sensor != ""
    ensures Str(sensor) in ActiveSensors(roads)
  {
  }

  /** A road whose entry holds an int congestion is routed by that congestion. */
  lemma RouteOfEntry(roads: map<Value, RoadState>, roadId: string, c: int)
    requires Str(roadId) in roads && roads[Str(roadId)].congestion == Int(c)
    ensures GetRoute(Fetched(JsonView(roads)), roadId) == Estimate(roadId, c)
  {
    assert JsonView(roads)[roadId] == EntryJson(roads[Str(roadId)]);
  }

  /**
   * Applying a reading's update: the road holds the reading's congestion, the
   * stamped timestamp and the reading's sensor, the counter moved by one, the
   * road count moved by one exactly when the road is new, the sensor is
   * counted as active, and the route is `Estimate` of the congestion.
   */
  lemma ApplyReading(s: TwinState, r: Reading, now: string)
    ensures Str(r.roadId) in Apply(s, Some(ReadingUpdate(r, now))).roads
    ensures Apply(s, Some(ReadingUpdate(r, now))).roads[Str(r.roadId)] ==
      RoadState(Int(r.congestion), Str(now), Str(r.sensorId))
    ensures Apply(s, Some(ReadingUpdate(r, now))).totalEvents == s.totalEvents + 1
    ensures |Apply(s, Some(ReadingUpdate(r, now))).roads| == |s.roads| + (if Str(r.roadId) in s.roads then 0 else 1)
    ensures r.sensorId != "" ==> Str(r.sensorId) in ActiveSensors(Apply(s, Some(ReadingUpdate(r, now))).roads)
    ensures GetRoute(Fetched(JsonView(Apply(s, Some(ReadingUpdate(r, now))).roads)), r.roadId) ==
      Estimate(r.roadId, r.congestion)
  {
    var u := ReadingUpdate(r, now);
    var after := Apply(s, Some(u));
    WriteCount(s.roads, u.road, u.entry);
    if r.sensorId != "" {
      SensorActive(after.roads, u.road, r.sensorId);
    }
    RouteOfEntry(after.roads, r.roadId, r.congestion);
  }

  /**
   * End to end: the payload the gateway publishes for reading `r` at time
   * `now`, once the twin applies it, has the effects of `ApplyReading`.
   */
  lemma IngestThenRoute(s: TwinState, r: Reading, now: string)
    ensures Step(s, EncodeEvent(Stamp(r, now))) == Apply(s, Some(ReadingUpdate(r, now)))
    ensures Str(r.roadId) in Step(s, EncodeEvent(Stamp(r, now))).roads
    ensures Step(s, EncodeEvent(Stamp(r, now))).roads[Str(r.roadId)] ==
      RoadState(Int(r.congestion), Str(now), Str(r.sensorId))
    ensures GetRoute(Fetched(JsonView(Step(s, EncodeEvent(Stamp(r, now))).roads)), r.roadId) ==
      Estimate(r.roadId, r.congestion)
  {
    DeliverEvent(Stamp(r, now));
    ApplyReading(s, r, now);
  }

  /** The worked example: sensor S1 reports 40 on road R42, and the route takes 14.0 minutes. */
  lemma ExampleR42(s: TwinState, r: Reading, now: string)
    requires r == Reading("S1", "R42", 40)
    ensures Str("R42") in Step(s, EncodeEvent(Stamp(r, now))).roads
    ensures Step(s, EncodeEvent(Stamp(r, now))).roads[Str("R42")] == RoadState(Int(40), Str(now), Str("S1"))
    ensures GetRoute(Fetched(JsonView(Step(s, EncodeEvent(Stamp(r, now))).roads)), "R42") == Known("R42", 40, 140)
  {
    IngestThenRoute(s, r, now);
  }

  /**
   * The services driven in sequence: the gateway ingests `r` and the broker
   * accepts it, the twin receives the payload, and the road and route are
   * queried.
   */
  method IngestAndQuery(gateway: Gateway, twin: TwinStore, r: Reading, now: string)
    returns (response: Response, entry: Option<RoadState>, route: Route)
    modifies gateway, twin
    ensures response == Published && gateway.eventCount == old(gateway.eventCount) + 1
    ensures twin.Model() == Apply(old(twin.Model()), Some(ReadingUpdate(r, now)))
    ensures twin.totalEvents == old(twin.totalEvents) + 1
    ensures entry == Some(RoadState(Int(r.congestion), Str(now), Str(r.sensorId)))
    ensures route == Estimate(r.roadId, r.congestion)
  {
    var payload, report;
    response, payload, report := gateway.Ingest(r, now, Delivered);
    ghost var before := twin.Model();
    var noClock := (v: Value) => None;
    var latency: Option<int> := twin.OnMessage(payload, noClock);
    IngestThenRoute(before, r, now);
    entry := twin.GetRoadState(r.roadId);
    var state := twin.GetState();
    route := GetRoute(Fetched(JsonView(state)), r.roadId);
  }
}
