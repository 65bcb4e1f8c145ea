/**
 * The request batch of `componentDidUpdate`: one position request per
 * selected satellite, all sharing the observer fields and the horizon
 * `duration * 60`, joined with `Promise.all` and unwrapped with
 * `res.map(sat => sat.data)`.
 */
module Batch {
  import opened Wrappers

  /** `this.props.observerData`; `altitude` is read by the source but never used. */
  datatype Observer = Observer(latitude: real, longitude: real, elevation: real, altitude: real, duration: int)

  /** One entry of `this.props.satData`. */
  datatype Satellite = Satellite(satid: int)

  /** The fields the position URL is built from. */
  datatype Request = Request(satid: int, latitude: real, longitude: real, elevation: real, endTime: int)

  /** `info` of a position response. */
  datatype Info = Info(satname: string)

  /** One entry of `positions`; an absent coordinate is None. */
  datatype Sample = Sample(satlongitude: Option<real>, satlatitude: Option<real>)

  /** `sat.data` of one position response; `positions` may be missing altogether. */
  datatype SatData = SatData(info: Info, positions: Option<seq<Sample>>)

  /** The position request for one satellite. */
  function RequestFor(sat: Satellite, obs: Observer): Request {
    Request(sat.satid, obs.latitude, obs.longitude, obs.elevation, obs.duration * 60)
  }

  /** `this.props.satData.map(...)`: one request per selected satellite, in selection order. */
  function Requests(sel: seq<Satellite>, obs: Observer): (rs: seq<Request>)
    ensures |rs| == |sel|
    ensures forall k :: 0 <= k < |rs| ==> rs[k].satid == sel[k].satid
    ensures forall k :: 0 <= k < |rs| ==> rs[k].endTime == obs.duration * 60
    ensures forall k :: 0 <= k < |rs| ==>
      rs[k].latitude == obs.latitude && rs[k].longitude == obs.longitude && rs[k].elevation == obs.elevation
  {
    if sel == [] then [] else [RequestFor(sel[0], obs)] + Requests(sel[1..], obs)
  }

  /**
   * `Promise.all` followed by `res.map(sat => sat.data)`: all responses in
   * request order when every request succeeded, otherwise one failure.
   */
  function Aggregate<T>(results: seq<Option<T>>): (r: Option<seq<T>>)
    ensures r.Some? <==> forall k :: 0 <= k < |results| ==> results[k].Some?
    ensures r.Some? ==> |r.value| == |results|
    ensures r.Some? ==> forall k :: 0 <= k < |results| ==> r.value[k] == results[k].value
  {
    if results == [] then Some([])
    else match results[0]
      case None => None
      case Some(first) =>
        match Aggregate(results[1..])
        case None => None
        case Some(rest) => Some([first] + rest)
  }

  /** Every request of a batch succeeding, as the results `Promise.all` sees. */
  function Resolved<T>(values: seq<T>): (r: seq<Option<T>>)
    ensures |r| == |values|
  {
    seq(|values|, k requires 0 <= k < |values| => Some(values[k]))
  }

  /** Aggregation and `Resolved` are inverse: the batch fails unless every result is a value. */
  lemma AggregateRoundTrip<T>(results: seq<Option<T>>, values: seq<T>)
    ensures Aggregate(results) == Some(values) <==> results == Resolved(values)
  {
    if Aggregate(results) == Some(values) {
      assert results == Resolved(values);
    }
    if results == Resolved(values) {
      assert Aggregate(results).value == values;
    }
  }

  /**
   * A batch for a selection yields exactly one track per selected satellite,
   * the k-th being the response to the k-th satellite's request.
   */
  lemma BatchFollowsSelection(sel: seq<Satellite>, obs: Observer, results: seq<Option<SatData>>)
    requires |results| == |Requests(sel, obs)|
    ensures Aggregate(results).Some? ==> |Aggregate(results).value| == |sel|
    ensures Aggregate(results).Some? ==>
      forall k :: 0 <= k < |sel| ==> Some(Aggregate(results).value[k]) == results[k]
  {
  }

  /** A ten-minute horizon over two satellites becomes two 600-second requests, in order. */
  lemma TwoSatelliteBatch(obs: Observer)
    requires obs.duration == 10
    ensures Requests([Satellite(25544), Satellite(43205)], obs) ==
      [Request(25544, obs.latitude, obs.longitude, obs.elevation, 600),
       Request(43205, obs.latitude, obs.longitude, obs.elevation, 600)]
  {
  }
}
