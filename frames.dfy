/**
 * What one tick of the frame loop paints on the overlay, as a list of
 * abstract drawing commands, and the logical clock shown in each frame.
 */
module Frames {
  import opened Wrappers
  import opened Batch
  import opened Labels
  import opened Colours

  /** A filled disc with its label beneath it, for sample `step` of track `track`. */
  datatype Marker = Marker(track: nat, step: nat, caption: string, colour: string)

  /** Overlay commands: `clearRect`, the timestamp `fillText`, one marker. */
  datatype Command = Clear | Timestamp(time: int) | Draw(marker: Marker)

  /** What `drawSat` does with one sample: returns early, paints a marker, or throws. */
  datatype Drawn = Skipped | Drew(marker: Marker) | Threw

  /** `positions[i]`, or None where the source reads an undefined sample or property. */
  function SampleAt(sat: SatData, step: nat): Option<Sample> {
    if sat.positions.Some? && step < |sat.positions.value| then Some(sat.positions.value[step]) else None
  }

  /** JavaScript truthiness of a coordinate: absent and zero are falsy. */
  predicate Truthy(c: Option<real>)
    ensures c.None? ==> !Truthy(c)
    ensures c == Some(0.0) ==> !Truthy(c)
    ensures c.Some? && c.value != 0.0 ==> Truthy(c)
  {
    c.Some? && c.value != 0.0
  }

  /** The body of `drawSat` for one sample, given the colour domain before it. */
  function SatMarker(track: nat, step: nat, info: Info, pos: Sample, domain: seq<string>): (r: Drawn)
    ensures r.Skipped? <==> !Truthy(pos.satlongitude) || !Truthy(pos.satlatitude)
    ensures r.Threw? <==> !r.Skipped? && forall j :: 0 <= j < |info.satname| ==> !IsDigit(info.satname[j])
    ensures r.Drew? ==> && r.marker.track == track && r.marker.step == step
                        && r.marker.caption == Digits(info.satname)
                        && r.marker.colour == ColourAt(Extend(domain, r.marker.caption), r.marker.caption)
                        && r.marker.colour in PALETTE
  {
    if !Truthy(pos.satlongitude) || !Truthy(pos.satlatitude) then Skipped
    else match NameLabel(info.satname)
      case None => Threw
      case Some(text) => Drew(Marker(track, step, text, ColourAt(Extend(domain, text), text)))
  }

  /** The sample exists, both coordinates are truthy and the name has digits: a marker is painted. */
  predicate Shown(sat: SatData, step: nat) {
    && SampleAt(sat, step).Some?
    && Truthy(SampleAt(sat, step).value.satlongitude)
    && Truthy(SampleAt(sat, step).value.satlatitude)
    && NameLabel(sat.info.satname).Some?
  }

  /** Drawing this track at this step does not throw. */
  predicate Drawable(sat: SatData, step: nat) {
    && SampleAt(sat, step).Some?
    && (Truthy(SampleAt(sat, step).value.satlongitude) && Truthy(SampleAt(sat, step).value.satlatitude)
        ==> NameLabel(sat.info.satname).Some?)
  }

  /** The markers painted so far, the colour domain, and the track whose drawing threw. */
  datatype Painted = Painted(markers: seq<Marker>, domain: seq<string>, failedAt: Option<nat>)

  /**
   * One iteration of the `forEach`: after a throw nothing more is drawn;
   * otherwise the track is drawn at `step`, or throws.
   */
  function DrawTrack(prev: Painted, k: nat, sat: SatData, step: nat): Painted {
    if prev.failedAt.Some? then prev
    else match SampleAt(sat, step)
      case None => prev.(failedAt := Some(k))
      case Some(pos) =>
        match SatMarker(k, step, sat.info, pos, prev.domain)
        case Skipped => prev
        case Threw => prev.(failedAt := Some(k))
        case Drew(m) => Painted(prev.markers + [m], Extend(prev.domain, m.caption), None)
  }

  /**
   * `data.forEach(sat => this.drawSat(info, positions[i]))`: the tracks are
   * drawn in order; a throw stops the rest of the tick.
   */
  function Paint(tracks: seq<SatData>, step: nat, domain: seq<string>): (r: Painted)
    ensures domain <= r.domain
    ensures |r.markers| <= |tracks|
    decreases |tracks|
  {
    if tracks == [] then Painted([], domain, None)
    else
      var k := |tracks| - 1;
      DrawTrack(Paint(tracks[..k], step, domain), k, tracks[k], step)
  }

  /** The overlay commands for a list of markers, in order. */
  function Draws(ms: seq<Marker>): (r: seq<Command>)
    ensures |r| == |ms|
  {
    seq(|ms|, j requires 0 <= j < |ms| => Draw(ms[j]))
  }

  /** The track indices of a list of markers. */
  function TracksOf(ms: seq<Marker>): (r: seq<nat>)
    ensures |r| == |ms|
  {
    seq(|ms|, j requires 0 <= j < |ms| => ms[j].track)
  }

  /** Reference definition: the indices, in order, of the tracks that get a marker. */
  function ShownTracks(tracks: seq<SatData>, step: nat): seq<nat>
    decreases |tracks|
  {
    if tracks == [] then []
    else
      var k := |tracks| - 1;
      ShownTracks(tracks[..k], step) + (if Shown(tracks[k], step) then [k] else [])
  }

  /** Where the `forEach` stopped: at the throwing track, or after the last one. */
  function Reached(r: Painted, tracks: seq<SatData>): nat {
    if r.failedAt.Some? && r.failedAt.value <= |tracks| then r.failedAt.value else |tracks|
  }

  /**
   * One iteration of the `forEach`: after a throw it changes nothing; a track
   * that cannot be drawn records the throw; a drawable one without a visible
   * sample is skipped; a shown one appends its marker, coloured by its digit
   * label in the extended domain.
   */
  lemma DrawTrackStep(prev: Painted, k: nat, sat: SatData, step: nat)
    ensures var r := DrawTrack(prev, k, sat, step);
      && (prev.failedAt.Some? ==> r == prev)
      && (prev.failedAt.None? && !Drawable(sat, step) ==> r == prev.(failedAt := Some(k)))
      && (prev.failedAt.None? && Drawable(sat, step) && !Shown(sat, step) ==> r == prev)
      && (prev.failedAt.None? && Shown(sat, step) ==>
            var text := Digits(sat.info.satname);
            var d := Extend(prev.domain, text);
            r == Painted(prev.markers + [Marker(k, step, text, ColourAt(d, text))], d, None))
  {
  }

  /** One step of `Paint`: how the last track changes what the earlier ones painted. */
  lemma PaintLast(tracks: seq<SatData>, step: nat, domain: seq<string>)
    requires tracks != []
    ensures var k := |tracks| - 1;
      var prev := Paint(tracks[..k], step, domain);
      var r := Paint(tracks, step, domain);
      && (prev.failedAt.Some? ==> r == prev)
      && (prev.failedAt.None? && !Drawable(tracks[k], step) ==> r == prev.(failedAt := Some(k)))
      && (prev.failedAt.None? && Drawable(tracks[k], step) && !Shown(tracks[k], step) ==> r == prev)
      && (prev.failedAt.None? && Shown(tracks[k], step) ==>
            var text := NameLabel(tracks[k].info.satname).value;
            var d := Extend(prev.domain, text);
            r == Painted(prev.markers + [Marker(k, step, text, ColourAt(d, text))], d, None))
  {
  }

  /**
   * Every marker is for sample `step` of a track whose sample is shown, its
   * label is that track's digit label, and there is at most one marker per
   * track, in track order.
   */
  lemma {:induction false} PaintMarkers(tracks: seq<SatData>, step: nat, domain: seq<string>)
    ensures var r := Paint(tracks, step, domain);
      forall j :: 0 <= j < |r.markers| ==>
        && r.markers[j].step == step
        && r.markers[j].track < |tracks|
        && Shown(tracks[r.markers[j].track], step)
        && NameLabel(tracks[r.markers[j].track].info.satname) == Some(r.markers[j].caption)
    ensures var r := Paint(tracks, step, domain);
      forall a, b :: 0 <= a < b < |r.markers| ==> r.markers[a].track < r.markers[b].track
    decreases |tracks|
  {
    if tracks != [] {
      var k := |tracks| - 1;
      PaintMarkers(tracks[..k], step, domain);
      PaintLast(tracks, step, domain);
      assert forall j :: 0 <= j < k ==> tracks[..k][j] == tracks[j];
    }
  }

  /** The tick fails exactly when some track cannot be drawn, and then at the first such track. */
  lemma {:induction false} PaintFailure(tracks: seq<SatData>, step: nat, domain: seq<string>)
    ensures var r := Paint(tracks, step, domain);
      r.failedAt.None? <==> forall k :: 0 <= k < |tracks| ==> Drawable(tracks[k], step)
    ensures var r := Paint(tracks, step, domain);
      r.failedAt.Some? ==>
        && r.failedAt.value < |tracks|
        && !Drawable(tracks[r.failedAt.value], step)
        && forall k :: 0 <= k < r.failedAt.value ==> Drawable(tracks[k], step)
    decreases |tracks|
  {
    if tracks != [] {
      var k := |tracks| - 1;
      PaintFailure(tracks[..k], step, domain);
      PaintLast(tracks, step, domain);
      assert forall j :: 0 <= j < k ==> tracks[..k][j] == tracks[j];
    }
  }

  /** Up to where drawing stopped, exactly the shown tracks get a marker, in track order. */
  lemma {:induction false} PaintComplete(tracks: seq<SatData>, step: nat, domain: seq<string>)
    ensures var r := Paint(tracks, step, domain);
      TracksOf(r.markers) == ShownTracks(tracks[..Reached(r, tracks)], step)
    decreases |tracks|
  {
    var r := Paint(tracks, step, domain);
    if tracks == [] {
      assert tracks[..0] == [];
    } else {
      var k := |tracks| - 1;
      var front := tracks[..k];
      var prev := Paint(front, step, domain);
      PaintComplete(front, step, domain);
      PaintFailure(front, step, domain);
      PaintLast(tracks, step, domain);
      if prev.failedAt.Some? {
        var v := prev.failedAt.value;
        assert Reached(prev, front) == v && Reached(r, tracks) == v;
        assert front[..v] == tracks[..v];
      } else {
        assert Reached(prev, front) == k;
        assert front[..k] == front;
        assert TracksOf(prev.markers) == ShownTracks(front, step);
        assert tracks[..|tracks|] == tracks;
        assert ShownTracks(tracks, step) == ShownTracks(front, step) + (if Shown(tracks[k], step) then [k] else []);
        if !Drawable(tracks[k], step) {
          assert Reached(r, tracks) == k;
        } else if !Shown(tracks[k], step) {
          assert Reached(r, tracks) == |tracks|;
        } else {
          var m := r.markers[|r.markers| - 1];
          assert r.markers == prev.markers + [m] && m.track == k;
          assert TracksOf(r.markers) == TracksOf(prev.markers) + [k];
          assert Reached(r, tracks) == |tracks|;
        }
      }
    }
  }

  /**
   * Each marker's colour is its label's palette entry in the domain after the
   * tick, and a duplicate-free domain stays duplicate-free.
   */
  lemma {:induction false} PaintColours(tracks: seq<SatData>, step: nat, domain: seq<string>)
    requires NoDuplicates(domain)
    ensures var r := Paint(tracks, step, domain);
      && NoDuplicates(r.domain)
      && forall j :: 0 <= j < |r.markers| ==>
           r.markers[j].caption in r.domain && r.markers[j].colour == ColourAt(r.domain, r.markers[j].caption)
    decreases |tracks|
  {
    if tracks != [] {
      var k := |tracks| - 1;
      var prev := Paint(tracks[..k], step, domain);
      var r := Paint(tracks, step, domain);
      PaintColours(tracks[..k], step, domain);
      PaintLast(tracks, step, domain);
      if prev.failedAt.None? && r.markers != prev.markers {
        var m := r.markers[|r.markers| - 1];
        assert r.markers == prev.markers + [m] && r.domain == Extend(prev.domain, m.caption);
        ExtendKeepsNoDuplicates(prev.domain, m.caption);
        forall j | 0 <= j < |prev.markers|
          ensures r.markers[j].caption in r.domain && r.markers[j].colour == ColourAt(r.domain, r.markers[j].caption)
        {
          ColourStable(prev.domain, r.domain, prev.markers[j].caption);
        }
      }
    }
  }

  /** Two markers with equal labels always get the same palette entry. */
  lemma SameLabelSameColour(tracks: seq<SatData>, step: nat, domain: seq<string>, a: nat, b: nat)
    requires NoDuplicates(domain)
    requires a < |Paint(tracks, step, domain).markers| && b < |Paint(tracks, step, domain).markers|
    requires Paint(tracks, step, domain).markers[a].caption == Paint(tracks, step, domain).markers[b].caption
    ensures Paint(tracks, step, domain).markers[a].colour == Paint(tracks, step, domain).markers[b].colour
  {
    PaintColours(tracks, step, domain);
  }

  /** Once a track throws, the rest of the `forEach` draws nothing. */
  lemma {:induction false} PaintAbsorbs(tracks: seq<SatData>, k: nat, step: nat, domain: seq<string>)
    requires k <= |tracks|
    requires Paint(tracks[..k], step, domain).failedAt.Some?
    ensures Paint(tracks, step, domain) == Paint(tracks[..k], step, domain)
    decreases |tracks| - k
  {
    if k < |tracks| {
      assert tracks[..k + 1][..k] == tracks[..k];
      PaintLast(tracks[..k + 1], step, domain);
      PaintAbsorbs(tracks, k + 1, step, domain);
    } else {
      assert tracks[..k] == tracks;
    }
  }

  /**
   * `new Date(now.getTime() + 60 * timePassed)`, with `timePassed` forced to 0
   * while the counter is still 0; all times in milliseconds.
   */
  function LogicalTime(start: int, i: nat, ct: int): (r: int)
    ensures i == 0 ==> r == start
    ensures start <= ct ==> start <= r
  {
    start + 60 * (if i == 0 then 0 else ct - start)
  }

  /** Once the counter has moved, each millisecond of wall clock advances the displayed time by sixty. */
  lemma TimestampRate(start: int, i: nat, ct: int, d: nat)
    requires i != 0
    ensures LogicalTime(start, i, ct + d) == LogicalTime(start, i, ct) + 60 * d
  {
  }

  /** With a non-decreasing wall clock that is not behind the loop's start, timestamps never go back. */
  lemma TimestampMonotone(start: int, i1: nat, ct1: int, i2: nat, ct2: int)
    requires start <= ct1 <= ct2
    requires i1 != 0 ==> i2 != 0
    ensures LogicalTime(start, i1, ct1) <= LogicalTime(start, i2, ct2)
  {
  }
}
