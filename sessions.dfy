/**
 * Whole sessions driven from outside, as the browser would: selection
 * updates, settled batches and timer firings in a chosen order.
 */
module Sessions {
  import opened Wrappers
  import opened Batch
  import opened Frames
  import opened Tracking
  import Labels

  /**
   * Fire an armed loop until its timer is cleared. When every track can be
   * drawn at every sample index, the loop takes ceil(len / 60) advancing
   * ticks and one stopping tick, and leaves `isDrawing` false and the hint empty.
   */
  method PlayToEnd(loop: FrameLoop, clock: seq<int>) returns (ticks: nat)
    requires loop.Valid() && loop.world.Valid() && loop.armed && loop.i == 0
    requires forall k, s :: 0 <= k < |loop.data| && 0 <= s < loop.len ==> Drawable(loop.data[k], s)
    requires 60 * |clock| >= loop.len + 60
    modifies loop, loop.world, loop.world.colour
    ensures ticks >= 1 && 60 * (ticks - 1) >= loop.len && 60 * (ticks - 2) < loop.len
    ensures !loop.armed && !loop.world.isDrawing && loop.world.hint == ""
  {
    ticks := 0;
    while loop.armed
      invariant loop.Valid() && loop.world.Valid()
      invariant loop.armed ==> loop.i == 60 * ticks && (ticks == 0 || 60 * (ticks - 1) < loop.len)
      invariant !loop.armed ==>
        && ticks >= 1 && 60 * (ticks - 1) >= loop.len && 60 * (ticks - 2) < loop.len
        && !loop.world.isDrawing && loop.world.hint == ""
      decreases loop.len + 60 - loop.i + (if loop.armed then 1 else 0)
    {
      if loop.i < loop.len {
        PaintFailure(loop.data, loop.i, loop.world.colour.domain);
      }
      var cmds, outcome := loop.Tick(clock[ticks]);
      ticks := ticks + 1;
    }
  }

  /** A track with a position at index 0 and a digit in its name. */
  function OneSample(name: string): SatData {
    SatData(Info(name), Some([Sample(Some(13.0), Some(52.0))]))
  }

  /**
   * A response without `positions` throws inside `.then` after `isDrawing`
   * was set, so no loop runs and every later batch is refused with the hint.
   */
  method NoPositionDataLocksOut(obs: Observer) returns (first: Settled, second: Settled)
    ensures first == TrackFailed(NoPositionData)
    ensures second == Busy
  {
    var world := new WorldMap();
    world.GenerateMap();
    var p := world.DidUpdate(true, [Satellite(12345)], obs);
    first := world.Settle(p.value, [Some(SatData(Info("SAT 12345"), None))], 0);
    assert world.isDrawing;
    p := world.DidUpdate(true, [Satellite(25544)], obs);
    second := world.Settle(p.value, [Some(OneSample("STARLINK-24"))], 1000);
  }

  /**
   * Two selection changes before either batch settles both carry
   * `prevState.isDrawing == false`, so both batches arm a loop.
   */
  method OverlappingBatches(obs: Observer) returns (a: Settled, b: Settled)
    ensures a.Armed? && b.Armed? && a.loop != b.loop
    ensures a.loop.armed && b.loop.armed
  {
    var world := new WorldMap();
    world.GenerateMap();
    var p1 := world.DidUpdate(true, [Satellite(25544)], obs);
    var p2 := world.DidUpdate(true, [Satellite(43205)], obs);
    a := world.Settle(p1.value, [Some(OneSample("STARLINK-24"))], 0);
    b := world.Settle(p2.value, [Some(OneSample("STARLINK-25"))], 0);
  }

  /**
   * An empty `positions` array is not "no position data": the loop is armed
   * and its first tick paints only the clear and the timestamp, then stops.
   */
  method EmptyPositionsStopAtOnce(obs: Observer, now: int) returns (s: Settled, cmds: seq<Command>, outcome: TickOutcome)
    ensures s.Armed?
    ensures cmds == [Clear, Timestamp(now)] && outcome == Stopped
  {
    var world := new WorldMap();
    world.GenerateMap();
    var p := world.DidUpdate(true, [Satellite(12345)], obs);
    s := world.Settle(p.value, [Some(SatData(Info("SAT 12345"), Some([])))], now);
    cmds, outcome := s.loop.Tick(now + 1000);
  }

  /** A batch that arrives before the world map was drawn throws in `track` as well. */
  method MapNotLoaded(obs: Observer) returns (s: Settled, drawing: bool)
    ensures s == TrackFailed(MapNotReady) && drawing
  {
    var world := new WorldMap();
    var p := world.DidUpdate(true, [Satellite(25544)], obs);
    s := world.Settle(p.value, [Some(OneSample("STARLINK-24"))], 0);
    drawing := world.isDrawing;
  }

  /** A failed batch only logs: the spinner flag raised by the update stays up. */
  method FailedBatchKeepsLoading(obs: Observer) returns (s: Settled, loading: bool, drawing: bool)
    ensures s == FetchFailed && loading && !drawing
  {
    var world := new WorldMap();
    world.GenerateMap();
    var p := world.DidUpdate(true, [Satellite(25544), Satellite(43205)], obs);
    s := world.Settle(p.value, [Some(OneSample("STARLINK-24")), None], 0);
    loading, drawing := world.isLoading, world.isDrawing;
  }

  /**
   * A visible sample whose satellite name has no digit makes `drawSat` throw
   * on every tick: the counter never moves and the timer is never cleared.
   */
  method DigitFreeNameFreezesLoop(obs: Observer) returns (first: TickOutcome, second: TickOutcome, i: nat, armed: bool)
    ensures first == Failed(0) && second == Failed(0) && i == 0 && armed
  {
    var world := new WorldMap();
    world.GenerateMap();
    var p := world.DidUpdate(true, [Satellite(25544)], obs);
    var iss := OneSample("ISS");
    var s := world.Settle(p.value, [Some(iss)], 0);
    assert Aggregate([Some(iss)]).value == [iss];
    assert Labels.Digits("ISS") == [];
    assert !Drawable(iss, 0);
    var cmds;
    PaintFailure([iss], 0, world.colour.domain);
    cmds, first := s.loop.Tick(1000);
    PaintFailure([iss], 0, world.colour.domain);
    cmds, second := s.loop.Tick(2000);
    i, armed := s.loop.i, s.loop.armed;
  }
}
