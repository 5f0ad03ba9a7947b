/**
 * The routing service (`GET /route/{road_id}`): it fetches the twin's whole
 * state and turns one road's congestion into a travel-time estimate.
 * Estimates are in tenths of a minute, so `10 + congestion * 0.1` minutes,
 * rounded to one decimal, is `100 + congestion` tenths.
 */
module Routing {
  import opened Literal

  /** `BASE_TRAVEL_TIME_MIN`, in minutes. */
  const BaseTravelTimeMin: int := 10

  /** Tenths of a minute in one minute. */
  const TenthsPerMinute: int := 10

  /**
   * The least magnitude of an int that Python cannot convert to a float,
   * 2^1024 - 2^970: from there on the int rounds, to 53 bits and half to
   * even, to 2^1024, and `congestion * 0.1` raises `OverflowError`.
   */
  const FloatOverflowAt: int := 0xFFFF_FFFF_FFFF_FC00_0000_0000_0000_0000_0000_0000_0000_0000_0000_0000_0000_0000_0000_0000_0000_0000_0000_0000_0000_0000_0000_0000_0000_0000_0000_0000_0000_0000_0000_0000_0000_0000_0000_0000_0000_0000_0000_0000_0000_0000_0000_0000_0000_0000_0000_0000_0000_0000_0000_0000_0000_0000_0000_0000_0000_0000_0000_0000_0000_0000

  /** `float(c)` succeeds. */
  predicate ConvertsToFloat(c: int) {
    -FloatOverflowAt < c < FloatOverflowAt
  }

  /** The twin's `/state` body as JSON: road id to that road's record. */
  type Snapshot = map<string, map<string, Value>>

  /** The outcome of asking the twin for its state. */
  datatype Fetch = Fetched(snapshot: Snapshot) | FetchFailed(message: string)

  /** The exceptions `get_route` turns into an `{error}` reply. */
  datatype RouteError =
    | Unreachable(message: string)   // the request or its JSON decoding failed
    | MissingCongestion              // the road's record has no `congestion`
    | NotNumeric(congestion: Value)  // `congestion * 0.1` is not defined for it
    | TooLarge(value: int)           // the int does not convert to a float

  /** The reply of `get_route`. */
  datatype Route =
    | Unknown(roadId: string)
    | Known(roadId: string, congestion: int, tenths: int)
    | Failed(cause: RouteError)

  /** The estimate `BASE_TRAVEL_TIME_MIN + congestion * 0.1`, in tenths of a minute. */
  function EstimateTenths(congestion: int): int {
    BaseTravelTimeMin * TenthsPerMinute + congestion
  }

  /** The reply for a road whose record holds the int congestion `c`. */
  function Estimate(roadId: string, c: int): Route {
    if ConvertsToFloat(c) then Known(roadId, c, EstimateTenths(c)) else Failed(TooLarge(c))
  }

  /**
   * `get_route`. An absent road, or one whose record is empty, is unknown;
   * an unreachable twin is an error, not an unknown road.
   */
  function GetRoute(fetch: Fetch, roadId: string): (r: Route)
    ensures fetch.FetchFailed? ==> r == Failed(Unreachable(fetch.message))
    ensures r.Unknown? <==>
      fetch.Fetched? && (roadId !in fetch.snapshot || fetch.snapshot[roadId] == map[])
    ensures r.Known? <==>
      && fetch.Fetched? && roadId in fetch.snapshot
      && "congestion" in fetch.snapshot[roadId] && fetch.snapshot[roadId]["congestion"].Int?
      && ConvertsToFloat(fetch.snapshot[roadId]["congestion"].n)
    ensures r.Failed? && fetch.Fetched? ==>
      roadId in fetch.snapshot && fetch.snapshot[roadId] != map[] &&
      (r.cause == MissingCongestion <==> "congestion" !in fetch.snapshot[roadId])
    ensures r.Failed? && fetch.Fetched? && "congestion" in fetch.snapshot[roadId] ==>
      var c := fetch.snapshot[roadId]["congestion"];
      r.cause == (if c.Int? then TooLarge(c.n) else NotNumeric(c))
    ensures r.Unknown? ==> r.roadId == roadId
    ensures r.Known? ==>
      && r.roadId == roadId
      && fetch.snapshot[roadId]["congestion"] == Int(r.congestion)
      && r.tenths == EstimateTenths(r.congestion)
  {
    match fetch
    case FetchFailed(message) => Failed(Unreachable(message))
    case Fetched(snapshot) =>
      if roadId !in snapshot || snapshot[roadId] == map[] then Unknown(roadId)
      else
        var road := snapshot[roadId];
        if "congestion" !in road then Failed(MissingCongestion)
        else
          match road["congestion"]
          case Int(c) => Estimate(roadId, c)
          case Str(_) => Failed(NotNumeric(road["congestion"]))
  }

  /**
   * The estimate grows with congestion: of two snapshots that give one road
   * the congestions `c1 <= c2`, the first yields the smaller estimate.
   */
  lemma EstimateMonotone(s1: Snapshot, s2: Snapshot, roadId: string, c1: int, c2: int)
    requires roadId in s1 && "congestion" in s1[roadId] && s1[roadId]["congestion"] == Int(c1)
    requires roadId in s2 && "congestion" in s2[roadId] && s2[roadId]["congestion"] == Int(c2)
    requires ConvertsToFloat(c1) && ConvertsToFloat(c2) && c1 <= c2
    ensures GetRoute(Fetched(s1), roadId).Known? && GetRoute(Fetched(s2), roadId).Known?
    ensures GetRoute(Fetched(s1), roadId).tenths <= GetRoute(Fetched(s2), roadId).tenths
  {
  }

  /** A free road takes the base time, 10.0 minutes. */
  lemma FreeRoadTakesBaseTime(s: Snapshot, roadId: string)
    requires roadId in s && "congestion" in s[roadId] && s[roadId]["congestion"] == Int(0)
    ensures GetRoute(Fetched(s), roadId) == Known(roadId, 0, 100)
  {
  }

  /** Congestion 40 gives 14.0 minutes. */
  lemma Congestion40(s: Snapshot, roadId: string)
    requires roadId in s && "congestion" in s[roadId] && s[roadId]["congestion"] == Int(40)
    ensures GetRoute(Fetched(s), roadId) == Known(roadId, 40, 140)
  {
  }

  /** A congestion too large for a float makes the route an `{error}` reply, however the rest of the record reads. */
  lemma TooLargeIsError(s: Snapshot, roadId: string, c: int)
    requires roadId in s && "congestion" in s[roadId] && s[roadId]["congestion"] == Int(c)
    requires !ConvertsToFloat(c)
    ensures GetRoute(Fetched(s), roadId) == Failed(TooLarge(c))
  {
  }
}
