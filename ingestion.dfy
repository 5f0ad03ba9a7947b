/**
 * The ingestion gateway (`POST /ingest`): it checks the shape of a reading,
 * stamps it with a timestamp, renders it as a payload and hands it to the
 * broker, counting the hand-offs that succeed.
 */
module Ingestion {
  import opened Wrappers
  import opened Literal

  /** The validated request body, `IngestedEvent`: no range check on any field. */
  datatype Reading = Reading(sensorId: string, roadId: string, congestion: int)

  /** The stamped event `event_out`: the reading plus one timestamp. */
  datatype StampedEvent = StampedEvent(sensorId: string, roadId: string, congestion: int, timestamp: string)

  /** What the broker did with one `publish.single` call. */
  datatype PublishOutcome = Delivered | Refused(error: string)

  /** The JSON reply of the gateway. `Rejected` is the framework's reply to a body of the wrong shape. */
  datatype Response = Published | MqttError(error: string) | Rejected

  /** Every thousandth successful hand-off is reported on the log. */
  const ReportEvery: nat := 1000

  /**
   * The body check the request model performs: the three fields must be
   * present with the types `str`, `str` and `int`; other fields are ignored.
   */
  function Validate(body: map<string, Value>): (r: Option<Reading>)
    ensures r.Some? <==>
      && "sensor_id" in body && body["sensor_id"].Str?
      && "road_id" in body && body["road_id"].Str?
      && "congestion" in body && body["congestion"].Int?
    ensures r.Some? ==>
      && body["sensor_id"] == Str(r.value.sensorId)
      && body["road_id"] == Str(r.value.roadId)
      && body["congestion"] == Int(r.value.congestion)
  {
    if && "sensor_id" in body && body["sensor_id"].Str?
       && "road_id" in body && body["road_id"].Str?
       && "congestion" in body && body["congestion"].Int?
    then Some(Reading(body["sensor_id"].s, body["road_id"].s, body["congestion"].n))
    else None
  }

  function Stamp(r: Reading, timestamp: string): StampedEvent {
    StampedEvent(r.sensorId, r.roadId, r.congestion, timestamp)
  }

  /** The entries of `event_out`, in the order the dictionary display lists them. */
  function EventEntries(e: StampedEvent): seq<(Value, Value)> {
    [ (Str("sensor_id"), Str(e.sensorId)),
      (Str("road_id"), Str(e.roadId)),
      (Str("congestion"), Int(e.congestion)),
      (Str("timestamp"), Str(e.timestamp)) ]
  }

  /** `str(event_out)`: the payload published on the bus. */
  function EncodeEvent(e: StampedEvent): string {
    DictText(EventEntries(e))
  }

  /** The dictionary the twin reads back from a published event. */
  function EventDict(e: StampedEvent): map<Value, Value> {
    map[Str("sensor_id") := Str(e.sensorId),
        Str("road_id") := Str(e.roadId),
        Str("congestion") := Int(e.congestion),
        Str("timestamp") := Str(e.timestamp)]
  }

  /**
   * Reading a published payload back recovers a dictionary with exactly the
   * four fields of the event, each with the value it was stamped with.
   */
  lemma DecodeEvent(e: StampedEvent)
    ensures ParseLiteral(EncodeEvent(e)) == Some(Dict(EventDict(e)))
    ensures EventDict(e).Keys == {Str("sensor_id"), Str("road_id"), Str("congestion"), Str("timestamp")}
  {
    FourEntryRoundTrip(Str("sensor_id"), Str(e.sensorId), Str("road_id"), Str(e.roadId),
                       Str("congestion"), Int(e.congestion), Str("timestamp"), Str(e.timestamp));
    EventKeys(e);
  }

  /** The event dictionary has exactly the four fields of `event_out`. */
  lemma EventKeys(e: StampedEvent)
    ensures EventDict(e).Keys == {Str("sensor_id"), Str("road_id"), Str("congestion"), Str("timestamp")}
  {
  }

  /** The ingestion service's process state: the count of successful hand-offs. */
  class Gateway {
    var eventCount: nat

    constructor ()
      ensures eventCount == 0
    {
      eventCount := 0;
    }

    /**
     * `ingest`: stamp the reading with `now`, render it and hand it to the
     * broker, whose answer is `publish`. Only a successful hand-off is
     * counted, and it is reported when the new count is a multiple of 1000.
     */
    method Ingest(r: Reading, now: string, publish: PublishOutcome)
      returns (response: Response, payload: string, report: bool)
      modifies this
      ensures payload == EncodeEvent(Stamp(r, now))
      ensures publish.Delivered? ==> response == Published && eventCount == old(eventCount) + 1
      ensures publish.Refused? ==> response == MqttError(publish.error) && eventCount == old(eventCount)
      ensures report <==> publish.Delivered? && eventCount % ReportEvery == 0
    {
      var event := Stamp(r, now);
      payload := EncodeEvent(event);
      match publish
      case Delivered =>
        eventCount := eventCount + 1;
        report := eventCount % ReportEvery == 0;
        response := Published;
      case Refused(error) =>
        report := false;
        response := MqttError(error);
    }

    /**
     * The whole `POST /ingest` request: a body that does not fit the request
     * model is rejected before `ingest` runs, so nothing is published and the
     * count does not move.
     */
    method Post(body: map<string, Value>, now: string, publish: PublishOutcome)
      returns (response: Response, payload: Option<string>, report: bool)
      modifies this
      ensures Validate(body).None? ==>
        response == Rejected && payload == None && !report && eventCount == old(eventCount)
      ensures Validate(body).Some? ==>
        && payload == Some(EncodeEvent(Stamp(Validate(body).value, now)))
        && response == (if publish.Delivered? then Published else MqttError(publish.error))
        && eventCount == old(eventCount) + (if publish.Delivered? then 1 else 0)
        && (report <==> publish.Delivered? && eventCount % ReportEvery == 0)
    {
      match Validate(body)
      case None =>
        response, payload, report := Rejected, None, false;
      case Some(r) =>
        var text;
        response, text, report := Ingest(r, now, publish);
        payload := Some(text);
    }
  }
}
