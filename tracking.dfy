/**
 * The `WorldMap` component's session state and its frame loop: the
 * `isLoading`/`isDrawing` flags, the hint line, the busy guard of
 * `componentDidUpdate`, `track` and the `setInterval` callback, with each
 * timer firing made an explicit `Tick`.
 */
module Tracking {
  import opened Wrappers
  import opened Batch
  import opened Labels
  import opened Colours
  import opened Frames

  /** The text the hint element receives when a batch arrives during an animation. */
  const PLEASE_WAIT: string := "Please wait for these satellite animation to finish before selection new ones!"

  /** A batch in flight: `prevState.isDrawing` as the update saw it, and the requests issued. */
  datatype Pending = Pending(prevIsDrawing: bool, requests: seq<Request>)

  /**
   * Why `track` throws before arming a loop: `data[0]` is undefined, it has no
   * `positions` property, or `this.map` is still null.
   */
  datatype TrackError = NoSatellites | NoPositionData | MapNotReady

  /** How a settled batch ends. */
  datatype Settled = FetchFailed | Busy | TrackFailed(error: TrackError) | Armed(loop: FrameLoop)

  /** What one firing of the interval did. */
  datatype TickOutcome = Idle | Stopped | Advanced | Failed(track: nat)

  /** The error `track` raises for this data, if any; only `data[0]` is inspected. */
  function TrackCheck(data: seq<SatData>, mapReady: bool): (r: Option<TrackError>)
    ensures r.None? <==> data != [] && data[0].positions.Some? && mapReady
    ensures r == Some(NoSatellites) <==> data == []
    ensures r == Some(NoPositionData) <==> data != [] && data[0].positions.None?
  {
    if data == [] then Some(NoSatellites)
    else if data[0].positions.None? then Some(NoPositionData)
    else if !mapReady then Some(MapNotReady)
    else None
  }

  class WorldMap {
    var isLoading: bool
    var isDrawing: bool
    /** The inner text of the `hint` element. */
    var hint: string
    /** `this.map` has been set by `generateMap`. */
    var mapReady: bool
    /** `this.color`. */
    const colour: ColourScale

    ghost predicate Valid()
      reads this, colour
    {
      colour.Valid()
    }

    constructor ()
      ensures Valid() && fresh(colour)
      ensures !isLoading && !isDrawing && hint == "" && !mapReady && colour.domain == []
    {
      isLoading, isDrawing, hint, mapReady := false, false, "", false;
      colour := new ColourScale();
    }

    /** `componentDidMount` after the world map arrived and `generateMap` painted it. */
    method GenerateMap()
      modifies this
      ensures mapReady
      ensures isLoading == old(isLoading) && isDrawing == old(isDrawing) && hint == old(hint)
    {
      mapReady := true;
    }

    /**
     * `componentDidUpdate`: when the selection changed, raise `isLoading` and
     * issue one request per satellite; the batch is issued whatever
     * `isDrawing` is, and the update's `prevState.isDrawing` travels with it.
     */
    method DidUpdate(changed: bool, sel: seq<Satellite>, obs: Observer) returns (p: Option<Pending>)
      modifies this
      ensures !changed ==> p == None && isLoading == old(isLoading)
      ensures changed ==> p == Some(Pending(old(isDrawing), Requests(sel, obs))) && isLoading
      ensures isDrawing == old(isDrawing) && hint == old(hint) && mapReady == old(mapReady)
    {
      if !changed {
        return None;
      }
      isLoading := true;
      p := Some(Pending(isDrawing, Requests(sel, obs)));
    }

    /**
     * The `.then`/`.catch` of `Promise.all`. A failed batch only logs. A
     * successful one clears `isLoading`, sets `isDrawing`, and then either
     * writes the hint (the update saw an animation running) or calls `track`,
     * whose throw lands in the same `.catch`.
     */
    method Settle(p: Pending, results: seq<Option<SatData>>, now: int) returns (s: Settled)
      requires Valid()
      requires |results| == |p.requests|
      modifies this
      ensures Valid() && mapReady == old(mapReady)
      ensures Aggregate(results).None? ==>
        s == FetchFailed && isLoading == old(isLoading) && isDrawing == old(isDrawing) && hint == old(hint)
      ensures Aggregate(results).Some? ==> !isLoading && isDrawing
      ensures Aggregate(results).Some? && p.prevIsDrawing ==> s == Busy && hint == PLEASE_WAIT
      ensures Aggregate(results).Some? && !p.prevIsDrawing ==>
        hint == old(hint) &&
        match TrackCheck(Aggregate(results).value, mapReady)
        case Some(e) => s == TrackFailed(e)
        case None =>
          && s.Armed? && fresh(s.loop) && s.loop.Valid()
          && s.loop.world == this && s.loop.data == Aggregate(results).value
          && s.loop.start == now && s.loop.i == 0 && s.loop.armed
    {
      var data := Aggregate(results);
      if data.None? {
        return FetchFailed;
      }
      isLoading, isDrawing := false, true;
      if p.prevIsDrawing {
        hint := PLEASE_WAIT;
        return Busy;
      }
      var t := Track(data.value, now);
      match t {
        case Err(e) => s := TrackFailed(e);
        case Ok(loop) => s := Armed(loop);
      }
    }

    /** `track`: check the first track, then arm a loop with its counter at 0. */
    method Track(data: seq<SatData>, now: int) returns (r: Result<FrameLoop, TrackError>)
      ensures TrackCheck(data, mapReady).Some? ==> r == Err(TrackCheck(data, mapReady).value)
      ensures TrackCheck(data, mapReady).None? ==>
        && r.Ok? && fresh(r.value) && r.value.Valid()
        && r.value.world == this && r.value.data == data && r.value.start == now
        && r.value.i == 0 && r.value.armed && r.value.len == |data[0].positions.value|
    {
      if data == [] {
        return Err(NoSatellites);
      }
      if data[0].positions.None? {
        return Err(NoPositionData);
      }
      if !mapReady {
        return Err(MapNotReady);
      }
      var loop := new FrameLoop(this, data, now);
      r := Ok(loop);
    }

    /** `drawSat`: skip falsy coordinates, derive the digit label, look up its colour. */
    method DrawSat(track: nat, step: nat, info: Info, pos: Sample) returns (r: Drawn)
      requires Valid()
      modifies colour
      ensures Valid()
      ensures r == SatMarker(track, step, info, pos, old(colour.domain))
      ensures colour.domain == if r.Drew? then Extend(old(colour.domain), r.marker.caption) else old(colour.domain)
    {
      if !Truthy(pos.satlongitude) || !Truthy(pos.satlatitude) {
        return Skipped;
      }
      var text := NameLabel(info.satname);
      if text.None? {
        return Threw;
      }
      var c := colour.Apply(text.value);
      r := Drew(Marker(track, step, text.value, c));
    }
  }

  /** One `setInterval` timer created by `track`, with the variables its callback closes over. */
  class FrameLoop {
    const world: WorldMap
    const data: seq<SatData>
    /** `data[0].positions.length`. */
    const len: nat
    /** `now`, the wall-clock time when `track` ran, in milliseconds. */
    const start: int
    /** The sample index drawn next. */
    var i: nat
    /** The timer has not been cleared. */
    var armed: bool

    ghost predicate Valid()
      reads this
    {
      && data != [] && data[0].positions.Some? && len == |data[0].positions.value|
      && i % 60 == 0 && i < len + 60
      && (!armed ==> i >= len)
    }

    constructor (world: WorldMap, data: seq<SatData>, now: int)
      requires data != [] && data[0].positions.Some?
      ensures Valid() && this.world == world && this.data == data && start == now
      ensures i == 0 && armed && len == |data[0].positions.value|
    {
      this.world, this.data, start := world, data, now;
      len := |data[0].positions.value|;
      i, armed := 0, true;
    }

    /**
     * One firing of the interval at wall-clock time `ct`: clear the overlay,
     * paint the timestamp, then either stop (counter past the samples) or
     * draw every track's sample `i` and step the counter by 60. A throw while
     * drawing leaves the counter where it was and the timer running.
     */
    method Tick(ct: int) returns (cmds: seq<Command>, outcome: TickOutcome)
      requires Valid() && world.Valid()
      modifies this, world, world.colour
      ensures Valid() && world.Valid()
      ensures !old(armed) ==> cmds == [] && outcome == Idle && unchanged(this, world, world.colour)
      ensures old(armed) && old(i) >= len ==>
        && cmds == [Clear, Timestamp(LogicalTime(start, old(i), ct))]
        && outcome == Stopped && !armed && i == old(i)
        && !world.isDrawing && world.hint == ""
        && world.isLoading == old(world.isLoading) && world.mapReady == old(world.mapReady)
        && unchanged(world.colour)
      ensures old(armed) && old(i) < len ==>
        var p := Paint(data, old(i), old(world.colour.domain));
        && cmds == [Clear, Timestamp(LogicalTime(start, old(i), ct))] + Draws(p.markers)
        && world.colour.domain == p.domain && unchanged(world) && armed
        && (p.failedAt.None? ==> i == old(i) + 60 && outcome == Advanced)
        && (p.failedAt.Some? ==> i == old(i) && outcome == Failed(p.failedAt.value))
    {
      if !armed {
        return [], Idle;
      }
      cmds := [Clear, Timestamp(LogicalTime(start, i, ct))];
      if i >= len {
        armed := false;
        world.isDrawing := false;
        world.hint := "";
        return cmds, Stopped;
      }
      ghost var p := Paint(data, i, world.colour.domain);
      var markers, failed := DrawTracks(i);
      assert markers == p.markers && failed == p.failedAt;
      if failed.None? {
        assert (i + 60) % 60 == 0;
        i := i + 60;
        outcome := Advanced;
      } else {
        outcome := Failed(failed.value);
      }
      cmds := cmds + Draws(markers);
    }

    /** `data.forEach(sat => this.drawSat(sat.info, sat.positions[step]))`, stopped by a throw. */
    method DrawTracks(step: nat) returns (markers: seq<Marker>, failed: Option<nat>)
      requires world.Valid()
      modifies world.colour
      ensures world.Valid()
      ensures Paint(data, step, old(world.colour.domain)) == Painted(markers, world.colour.domain, failed)
    {
      ghost var domain0 := world.colour.domain;
      var k := 0;
      markers, failed := [], None;
      assert data[..0] == [];
      while k < |data| && failed.None?
        invariant 0 <= k <= |data|
        invariant world.Valid()
        invariant Paint(data[..k], step, domain0) == Painted(markers, world.colour.domain, failed)
      {
        assert data[..k + 1][..k] == data[..k];
        ghost var before := Painted(markers, world.colour.domain, failed);
        assert Paint(data[..k + 1], step, domain0) == DrawTrack(before, k, data[k], step);
        match SampleAt(data[k], step) {
          case None =>
            failed := Some(k);
          case Some(pos) =>
            var drawn := world.DrawSat(k, step, data[k].info, pos);
            match drawn {
              case Skipped =>
              case Threw => failed := Some(k);
              case Drew(m) => markers := markers + [m];
            }
        }
        k := k + 1;
      }
      if failed.None? {
        assert data[..k] == data;
      } else {
        PaintAbsorbs(data, k, step, domain0);
      }
    }
  }
}
