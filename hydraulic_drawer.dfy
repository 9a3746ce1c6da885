/**
  The arithmetic of CadProfileHydraulicDrawer: the elevation range of the hydraulic curve, the
  distance span of a band, and the normalisation that maps the range onto a 4 m grid drawn 2 m
  above each band's top row. The line and layer output is not modelled.
*/
module HydraulicDrawer {
  import opened Wrappers
  import opened Domain
  import opened CadTransform

  /** The hydraulic grid starts 2 m above the band's top row and is 4 m high. */
  const VerticalOffsetMeters: real := 2.0
  const HydraulicGridHeight: real := 4.0

  /** The range used when the segments hold no elevation at all. */
  const DefaultMinElevation: real := 1070.0
  const DefaultMaxElevation: real := 1074.0

  /** Entry i of segment k is an elevation (an odd index of its pair array). */
  predicate ElevationAt(segs: seq<HydraulicSegment>, k: int, i: int) {
    0 <= k < |segs| && 0 <= i < |segs[k].pairs| && i % 2 == 1
  }

  /** (k2, i2) comes before (k, i) in the scan order: segment by segment, entry by entry. */
  predicate Before(k2: int, i2: int, k: int, i: int) {
    k2 < k || (k2 == k && i2 < i)
  }

  ghost predicate NoElevations(segs: seq<HydraulicSegment>) {
    forall k, i :: !ElevationAt(segs, k, i)
  }

  /**
    The scan state before entry i of segment k: lo and hi are still unset (the code's MaxValue and
    MinValue) exactly when no elevation was read; otherwise they bound every elevation read and
    are attained at the witnesses (lk, li) and (hk, hi).
  */
  ghost predicate RangeSoFar(segs: seq<HydraulicSegment>, k: int, i: int, lo: Option<real>, hi: Option<real>,
                             lk: int, li: int, hk: int, hi': int)
  {
    (lo.None? <==> hi.None?)
    && (lo.None? ==> forall k2, i2 :: ElevationAt(segs, k2, i2) ==> !Before(k2, i2, k, i))
    && (lo.Some? ==>
          ElevationAt(segs, lk, li) && Before(lk, li, k, i) && segs[lk].pairs[li] == lo.value
          && ElevationAt(segs, hk, hi') && Before(hk, hi', k, i) && segs[hk].pairs[hi'] == hi.value
          && forall k2, i2 :: ElevationAt(segs, k2, i2) && Before(k2, i2, k, i) ==>
               lo.value <= segs[k2].pairs[i2] <= hi.value)
  }

  /** Reading entry i of segment k (an elevation) extends the state to the next entry. */
  lemma ReadStep(segs: seq<HydraulicSegment>, k: int, i: int, lo: Option<real>, hi: Option<real>,
                 lk: int, li: int, hk: int, hi': int)
    requires RangeSoFar(segs, k, i, lo, hi, lk, li, hk, hi') && ElevationAt(segs, k, i)
    ensures var e := segs[k].pairs[i];
      var lo2 := if lo.None? || e < lo.value then Some(e) else lo;
      var hi2 := if hi.None? || e > hi.value then Some(e) else hi;
      var (lk2, li2) := if lo.None? || e < lo.value then (k, i) else (lk, li);
      var (hk2, hi2') := if hi.None? || e > hi.value then (k, i) else (hk, hi');
      RangeSoFar(segs, k, i + 2, lo2, hi2, lk2, li2, hk2, hi2')
  {
    forall k2, i2 | ElevationAt(segs, k2, i2) && Before(k2, i2, k, i + 2) && !Before(k2, i2, k, i)
      ensures k2 == k && i2 == i
    {
    }
  }

  /** Past the last entry of segment k, the state holds at the first entry of segment k + 1. */
  lemma NextSegment(segs: seq<HydraulicSegment>, k: int, i: int, lo: Option<real>, hi: Option<real>,
                    lk: int, li: int, hk: int, hi': int)
    requires 0 <= k < |segs| && i >= |segs[k].pairs|
    requires RangeSoFar(segs, k, i, lo, hi, lk, li, hk, hi')
    ensures RangeSoFar(segs, k + 1, 1, lo, hi, lk, li, hk, hi')
  {
    forall k2, i2 | ElevationAt(segs, k2, i2) ensures Before(k2, i2, k + 1, 1) == Before(k2, i2, k, i) {
    }
  }

  /**
    FindHydraulicElevationRange: the least and the greatest elevation entry over all segments;
    [1070, 1074] when there is none. Distance entries are never read.
  */
  method FindHydraulicElevationRange(segs: seq<HydraulicSegment>) returns (minElev: real, maxElev: real)
    ensures NoElevations(segs) ==> minElev == DefaultMinElevation && maxElev == DefaultMaxElevation
    ensures !NoElevations(segs) ==>
      forall k, i :: ElevationAt(segs, k, i) ==> minElev <= segs[k].pairs[i] <= maxElev
    ensures !NoElevations(segs) ==> exists k, i :: ElevationAt(segs, k, i) && segs[k].pairs[i] == minElev
    ensures !NoElevations(segs) ==> exists k, i :: ElevationAt(segs, k, i) && segs[k].pairs[i] == maxElev
  {
    var lo: Option<real> := None;
    var hi: Option<real> := None;
    ghost var lk, li, hk, hi' := 0, 0, 0, 0;
    var k := 0;
    while k < |segs|
      invariant 0 <= k <= |segs|
      invariant RangeSoFar(segs, k, 1, lo, hi, lk, li, hk, hi')
    {
      var pairs := segs[k].pairs;
      var i := 1;
      while i < |pairs|
        invariant i >= 1 && i % 2 == 1
        invariant RangeSoFar(segs, k, i, lo, hi, lk, li, hk, hi')
      {
        var e := pairs[i];
        ReadStep(segs, k, i, lo, hi, lk, li, hk, hi');
        if lo.None? || e < lo.value {
          lo := Some(e);
          lk, li := k, i;
        }
        if hi.None? || e > hi.value {
          hi := Some(e);
          hk, hi' := k, i;
        }
        i := i + 2;
      }
      NextSegment(segs, k, i, lo, hi, lk, li, hk, hi');
      k := k + 1;
    }
    if lo.None? {
      minElev, maxElev := DefaultMinElevation, DefaultMaxElevation;
    } else {
      minElev, maxElev := lo.value, hi.value;
    }
  }

  /**
    The distance span of band b: from the previous break (0 for the first band) to its own
    break. A band without a break of its own fails at the read of BreakKms[b].
  */
  function BandSpan(bands: ProfileBandSet, b: nat): (r: Result<(BreakKm, BreakKm), Error>)
    ensures r.Failure? <==> b >= |bands.breakKms|
    ensures r.Failure? ==> r.error == IndexOutOfRange
  {
    if b >= |bands.breakKms| then Failure(IndexOutOfRange)
    else Success((if b == 0 then Finite(0.0) else bands.breakKms[b - 1], bands.breakKms[b]))
  }

  /** The first band starts at 0, and every band ends where the next one starts. */
  lemma BandSpansChain(bands: ProfileBandSet, b: nat)
    requires b + 1 < |bands.breakKms|
    ensures BandSpan(bands, 0).value.0 == Finite(0.0)
    ensures BandSpan(bands, b).value.1 == BandSpan(bands, b + 1).value.0 == bands.breakKms[b]
  {
  }

  /** The elevation range used for scaling: a non-positive range is replaced by 4 m. */
  function EffectiveRange(minElev: real, maxElev: real): (r: real)
    ensures r > 0.0
  {
    var range := maxElev - minElev;
    if range <= 0.0 then 4.0 else range
  }

  /** The height, in metres inside the hydraulic grid, at which an elevation is drawn. */
  function Normalize(e: real, minElev: real, maxElev: real): real {
    ((e - minElev) / EffectiveRange(minElev, maxElev)) * HydraulicGridHeight
  }

  /**
    The lowest elevation is drawn at the grid's bottom and, for a positive range, the highest at
    its top; the map is strictly increasing and keeps the range inside the grid.
  */
  lemma NormalizeMapsRangeOntoGrid(minElev: real, maxElev: real, e1: real, e2: real)
    ensures Normalize(minElev, minElev, maxElev) == 0.0
    ensures maxElev > minElev ==> Normalize(maxElev, minElev, maxElev) == HydraulicGridHeight
    ensures e1 < e2 ==> Normalize(e1, minElev, maxElev) < Normalize(e2, minElev, maxElev)
    ensures minElev <= e1 <= maxElev ==> 0.0 <= Normalize(e1, minElev, maxElev) <= HydraulicGridHeight
  {
    var r := EffectiveRange(minElev, maxElev);
    if e1 < e2 {
      assert (e2 - minElev) / r - (e1 - minElev) / r == (e2 - e1) / r > 0.0;
    }
    if minElev <= e1 <= maxElev {
      assert e1 - minElev <= r || maxElev - minElev <= 0.0;
      if maxElev - minElev <= 0.0 {
        assert e1 == minElev;
      } else {
        assert (e1 - minElev) / r <= 1.0;
      }
    }
  }

  /**
    The y of a vertex of the hydraulic curve drawn in band b (DrawHydraulicCurvesForBand): the
    band's top row, 2 m up in the drawer's scale, then the normalised elevation in that scale.
  */
  function CurveVertexY(t: Transformer, bands: ProfileBandSet, b: int, e: real, minElev: real, maxElev: real,
                        perMeter: real): (r: Result<real, Error>)
    ensures r.Success? <==> 0 <= b < bands.BandCount() && t.bands.BandCount() >= 1
  {
    if !(0 <= b < bands.BandCount()) then Failure(IndexOutOfRange)
    else
      var topY := t.ToCadY(bands.topLevels[b] as real, b);
      if topY.Failure? then Failure(topY.error)
      else
        var bottomY := topY.value + VerticalOffsetMeters * perMeter;
        Success(bottomY + Normalize(e, minElev, maxElev) * perMeter)
  }

  /**
    The two ends of a micro-break mark (DrawBreakMarkers): both at the marker's distance, at the
    heights of the reference top before and after the drop, in the marker's own band.
  */
  function MarkerEnds(t: Transformer, bands: ProfileBandSet, mk: VerticalBreakMarker, minElev: real, maxElev: real,
                      perMeter: real): (r: Result<(real, real, real), Error>)
    ensures r.Success? <==> 0 <= mk.bandIndex < bands.BandCount() && t.bands.BandCount() >= 1
  {
    var x := t.ToCadX(mk.km, mk.bandIndex);
    if !(0 <= mk.bandIndex < bands.BandCount()) then Failure(IndexOutOfRange)
    else
      var topY := t.ToCadY(bands.topLevels[mk.bandIndex] as real, mk.bandIndex);
      if topY.Failure? then Failure(topY.error)
      else
        var bottomY := topY.value + VerticalOffsetMeters * perMeter;
        var yTop := bottomY + Normalize(mk.fromTopRef, minElev, maxElev) * perMeter;
        var yBot := bottomY + Normalize(mk.toTopRef, minElev, maxElev) * perMeter;
        Success((x, yTop, yBot))
  }

  /**
    With the transformer's band set and vertical scale, a curve vertex of elevation e in band b is
    drawn 2 m plus its normalised height above the grid's top row: the least elevation on the
    hydraulic grid's bottom edge, the greatest on its top edge.
  */
  lemma CurveOnHydraulicGrid(t: Transformer, b: int, e: real, minElev: real, maxElev: real)
    requires 0 <= b < t.bands.BandCount()
    ensures CurveVertexY(t, t.bands, b, e, minElev, maxElev, t.opt.perMeter).Success?
    ensures CurveVertexY(t, t.bands, b, e, minElev, maxElev, t.opt.perMeter).value
      == t.opt.gridTopY + (VerticalOffsetMeters + Normalize(e, minElev, maxElev)) * t.opt.perMeter
    ensures CurveVertexY(t, t.bands, b, minElev, minElev, maxElev, t.opt.perMeter).value
      == t.opt.gridTopY + VerticalOffsetMeters * t.opt.perMeter
    ensures maxElev > minElev ==>
      (CurveVertexY(t, t.bands, b, maxElev, minElev, maxElev, t.opt.perMeter).value
       == t.opt.gridTopY + (VerticalOffsetMeters + HydraulicGridHeight) * t.opt.perMeter)
  {
    BandTopOnGridTop(t, b);
    NormalizeMapsRangeOntoGrid(minElev, maxElev, e, e);
  }

  /** Break marks use the curve's mapping: their ends sit where curve vertices at the two reference tops would. */
  lemma MarkersUseCurveMapping(t: Transformer, bands: ProfileBandSet, mk: VerticalBreakMarker, minElev: real,
                               maxElev: real, perMeter: real)
    ensures var m := MarkerEnds(t, bands, mk, minElev, maxElev, perMeter);
      var top := CurveVertexY(t, bands, mk.bandIndex, mk.fromTopRef, minElev, maxElev, perMeter);
      var bot := CurveVertexY(t, bands, mk.bandIndex, mk.toTopRef, minElev, maxElev, perMeter);
      m.Success? <==> top.Success? && bot.Success?
    ensures var m := MarkerEnds(t, bands, mk, minElev, maxElev, perMeter);
      m.Success? ==>
        m.value.0 == t.ToCadX(mk.km, mk.bandIndex)
        && CurveVertexY(t, bands, mk.bandIndex, mk.fromTopRef, minElev, maxElev, perMeter) == Success(m.value.1)
        && CurveVertexY(t, bands, mk.bandIndex, mk.toTopRef, minElev, maxElev, perMeter) == Success(m.value.2)
  {
    var m := MarkerEnds(t, bands, mk, minElev, maxElev, perMeter);
    if m.Success? {
      var top := CurveVertexY(t, bands, mk.bandIndex, mk.fromTopRef, minElev, maxElev, perMeter);
      var bot := CurveVertexY(t, bands, mk.bandIndex, mk.toTopRef, minElev, maxElev, perMeter);
      var topY := t.ToCadY(bands.topLevels[mk.bandIndex] as real, mk.bandIndex);
      var bottomY := topY.value + VerticalOffsetMeters * perMeter;
      var yTop := bottomY + Normalize(mk.fromTopRef, minElev, maxElev) * perMeter;
      var yBot := bottomY + Normalize(mk.toTopRef, minElev, maxElev) * perMeter;
      assert topY.Success?;
      assert m.value.1 == yTop;
      assert m.value.2 == yBot;
      assert top.value == yTop;
      assert bot.value == yBot;
    }
  }

  /** A mark for a drop of one step is step / range grid heights long, pointing down for a positive scale. */
  lemma MarkerLength(t: Transformer, bands: ProfileBandSet, mk: VerticalBreakMarker, minElev: real, maxElev: real,
                     perMeter: real, step: real)
    requires MarkerEnds(t, bands, mk, minElev, maxElev, perMeter).Success?
    requires mk.toTopRef == mk.fromTopRef - step
    ensures var m := MarkerEnds(t, bands, mk, minElev, maxElev, perMeter).value;
      m.1 - m.2 == (step / EffectiveRange(minElev, maxElev)) * HydraulicGridHeight * perMeter
  {
    var r := EffectiveRange(minElev, maxElev);
    assert (mk.fromTopRef - minElev) / r - (mk.toTopRef - minElev) / r == step / r;
  }
}
