/**
  The arithmetic of CadProfileEquipmentDrawer: which band an item is drawn in, where its symbol is
  anchored, and the drawer's own pipe interpolation. The block insertion itself is not modelled.
*/
module EquipmentDrawer {
  import opened Wrappers
  import opened Geometry
  import opened Domain
  import opened CadTransform
  import opened HydraulicDrawer

  /** Default distance (drawing units) between the top of the hydraulic grid and the symbols. */
  const HydraulicOffsetCadUnits: real := 40.0
  // The 2 m offset and the 4 m height of the hydraulic grid are those of HydraulicDrawer.

  /** km <= BreakKms[i] as IEEE compares it: no finite distance is at or below minus infinity. */
  predicate Covers(km: real, b: BreakKm) {
    b.Finite? && km <= b.km
  }

  /** The first break at or after index i that covers km. */
  function FirstCovering(km: real, breaks: seq<BreakKm>, i: nat): (r: Option<nat>)
    ensures r.Some? ==> i <= r.value < |breaks| && Covers(km, breaks[r.value])
    ensures r.Some? ==> forall j :: i <= j < r.value ==> !Covers(km, breaks[j])
    ensures r.None? ==> forall j :: i <= j < |breaks| ==> !Covers(km, breaks[j])
    decreases |breaks| - i
  {
    if i >= |breaks| then None
    else if Covers(km, breaks[i]) then Some(i)
    else FirstCovering(km, breaks, i + 1)
  }

  /** The band ResolveBandIndex picks: the first covering break, capped at the last band. */
  function ResolvedBand(km: real, bands: ProfileBandSet): int {
    match FirstCovering(km, bands.breakKms, 0)
    case Some(i) => MinInt(i, bands.BandCount() - 1)
    case None => bands.BandCount() - 1
  }

  /** ResolveBandIndex: scans the breaks in order and returns at the first one covering km. */
  method ResolveBandIndex(km: real, bands: ProfileBandSet) returns (r: int)
    ensures r == ResolvedBand(km, bands)
    ensures bands.BandCount() >= 1 ==> 0 <= r < bands.BandCount()
  {
    var i := 0;
    while i < |bands.breakKms|
      invariant FirstCovering(km, bands.breakKms, i) == FirstCovering(km, bands.breakKms, 0)
    {
      if Covers(km, bands.breakKms[i]) {
        return MinInt(i, bands.BandCount() - 1);
      }
      i := i + 1;
    }
    return bands.BandCount() - 1;
  }

  /**
    The band of an item is the index of the first break at or after its distance, capped at the
    last band; past every break it is the last band; with at least one band it is a valid index.
  */
  lemma ResolvedBandSpec(km: real, bands: ProfileBandSet)
    ensures forall i ::
      (0 <= i < |bands.breakKms| && Covers(km, bands.breakKms[i])
        && (forall j :: 0 <= j < i ==> !Covers(km, bands.breakKms[j])))
      ==> ResolvedBand(km, bands) == MinInt(i, bands.BandCount() - 1)
    ensures (forall i :: 0 <= i < |bands.breakKms| ==> !Covers(km, bands.breakKms[i])) ==>
      ResolvedBand(km, bands) == bands.BandCount() - 1
    ensures bands.BandCount() >= 1 ==> 0 <= ResolvedBand(km, bands) < bands.BandCount()
  {
    var f := FirstCovering(km, bands.breakKms, 0);
    forall i | 0 <= i < |bands.breakKms| && Covers(km, bands.breakKms[i])
      && (forall j :: 0 <= j < i ==> !Covers(km, bands.breakKms[j]))
      ensures f == Some(i)
    {
    }
  }

  /**
    The anchor of an item's symbol (Draw): x is the transformer's x in the resolved band; y is the
    top row of that band plus the 2 m offset and the 4 m height of the hydraulic grid (in the
    drawer's vertical scale), plus the drawing offset. A band set without bands fails at the read
    of TopLevels[-1]; the transformer's own ToCadY fails when its band set has no bands.
  */
  function ItemAnchor(km: real, bands: ProfileBandSet, t: Transformer, drawerPerMeter: real, offset: real)
    : (r: Result<(real, real), Error>)
    ensures r.Failure? <==> bands.BandCount() == 0 || t.bands.BandCount() == 0
    ensures r.Success? ==> r.value.0 == t.ToCadX(km, ResolvedBand(km, bands))
  {
    var b := ResolvedBand(km, bands);
    var x := t.ToCadX(km, b);
    if b < 0 then Failure(IndexOutOfRange)
    else
      ResolvedBandSpec(km, bands);
      var topY := t.ToCadY(bands.topLevels[b] as real, b);
      if topY.Failure? then Failure(topY.error)
      else
        var hydraulicTopY := topY.value + VerticalOffsetMeters * drawerPerMeter + HydraulicGridHeight * drawerPerMeter;
        Success((x, hydraulicTopY + offset))
  }

  /**
    When the drawer and the transformer share the band set and the vertical scale, every symbol
    sits at the same height, GridTopY + 6 m + the offset, whatever the pipe elevation at its
    distance.
  */
  lemma AnchorAboveHydraulicGrid(km: real, bands: ProfileBandSet, t: Transformer, offset: real)
    requires t.bands == bands && bands.BandCount() >= 1
    ensures ItemAnchor(km, bands, t, t.opt.perMeter, offset).Success?
    ensures ItemAnchor(km, bands, t, t.opt.perMeter, offset).value.1 == t.opt.gridTopY + 6.0 * t.opt.perMeter + offset
  {
    var b := ResolvedBand(km, bands);
    ResolvedBandSpec(km, bands);
    BandTopOnGridTop(t, b);
  }

  /** Segment i (i even, i >= 2) contains x, bounds included. */
  predicate Contains(xy: seq<real>, i: nat, x: real) {
    2 <= i && i % 2 == 0 && i + 2 <= |xy| && xy[i - 2] <= x <= xy[i]
  }

  /**
    The scan of InterpolatePipeElevation from segment i on. None stands for the NaN of 0/0 when
    the first segment containing x has zero length.
  */
  function PipeElevationFrom(xy: seq<real>, x: real, i: nat): Option<real>
    requires |xy| >= 1 && 2 <= i && i % 2 == 0
    decreases |xy| - i
  {
    if i + 2 > |xy| then Some(xy[|xy| - 1])
    else if xy[i - 2] <= x <= xy[i] then
      if xy[i] == xy[i - 2] then None
      else
        var t := (x - xy[i - 2]) / (xy[i] - xy[i - 2]);
        Some(xy[i - 1] + t * (xy[i + 1] - xy[i - 1]))
    else PipeElevationFrom(xy, x, i + 2)
  }

  /**
    InterpolatePipeElevation: the first segment containing x, bounds included, is interpolated;
    with none the LAST elevation is returned (also before the first distance). An empty array
    fails at the read of its last entry.
  */
  method InterpolatePipeElevation(xy: seq<real>, x: real) returns (y: Result<Option<real>, Error>)
    ensures y.Failure? <==> xy == []
    ensures y.Failure? ==> y.error == IndexOutOfRange
    ensures y.Success? ==> y.value == PipeElevationFrom(xy, x, 2)
  {
    if |xy| == 0 {
      return Failure(IndexOutOfRange);
    }
    var i := 2;
    while i <= |xy| - 2
      invariant 2 <= i && i % 2 == 0
      invariant PipeElevationFrom(xy, x, i) == PipeElevationFrom(xy, x, 2)
      decreases |xy| - i
    {
      var x1, x2 := xy[i - 2], xy[i];
      if x1 <= x && x <= x2 {
        var y1, y2 := xy[i - 1], xy[i + 1];
        if x2 == x1 {
          return Success(None);
        }
        var t := (x - x1) / (x2 - x1);
        var yi := PipeElevationFrom(xy, x, i);
        assert yi.value == y1 + t * (y2 - y1);
        return Success(Some(y1 + t * (y2 - y1)));
      }
      i := i + 2;
    }
    return Success(Some(xy[|xy| - 1]));
  }

  lemma {:induction false} SkipSegments(xy: seq<real>, x: real, i: nat, j: nat)
    requires |xy| >= 1 && 2 <= i <= j && i % 2 == 0 && j % 2 == 0
    requires forall k :: i <= k < j ==> !Contains(xy, k, x)
    ensures PipeElevationFrom(xy, x, i) == PipeElevationFrom(xy, x, j)
    decreases j - i
  {
    if i < j {
      assert !Contains(xy, i, x);
      SkipSegments(xy, x, i + 2, j);
    }
  }

  /** The t-form of the drawer is the straight line through the segment's ends. */
  lemma TFormIsLerp(x1: real, y1: real, x2: real, y2: real, x: real)
    requires x1 != x2
    ensures y1 + ((x - x1) / (x2 - x1)) * (y2 - y1) == Lerp(x1, y1, x2, y2, x)
  {
    var d := x2 - x1;
    assert ((x - x1) / d) * (y2 - y1) == (x - x1) * ((y2 - y1) / d);
  }

  /** The scan stops at a segment of non-zero length that contains x, with the straight line's value. */
  lemma AtContaining(xy: seq<real>, x: real, i: nat)
    requires |xy| >= 1 && Contains(xy, i, x) && xy[i - 2] != xy[i]
    ensures PipeElevationFrom(xy, x, i) == Some(Lerp(xy[i - 2], xy[i - 1], xy[i], xy[i + 1], x))
  {
    var y := PipeElevationFrom(xy, x, i);
    assert y.value == xy[i - 1] + ((x - xy[i - 2]) / (xy[i] - xy[i - 2])) * (xy[i + 1] - xy[i - 1]);
    TFormIsLerp(xy[i - 2], xy[i - 1], xy[i], xy[i + 1], x);
    var l := Lerp(xy[i - 2], xy[i - 1], xy[i], xy[i + 1], x);
    assert y.value == l;
    assert y == Some(l);
  }

  /**
    Unlike InterpolateYAtX, the drawer's lookup includes the bounds: at any vertex of an increasing
    pipe it returns that vertex's own elevation.
  */
  lemma PipeElevationAtVertex(xy: seq<real>, v: nat)
    requires StrictlyIncreasingKm(xy) && |xy| >= 4 && 2 * v + 1 < |xy|
    ensures PipeElevationFrom(xy, xy[2 * v], 2) == Some(xy[2 * v + 1])
  {
    var x := xy[2 * v];
    if v == 0 {
      assert xy[0] < xy[2];
      AtContaining(xy, x, 2);
      LerpBetween(xy[0], xy[1], xy[2], xy[3], x);
    } else {
      forall k | 2 <= k < 2 * v ensures !Contains(xy, k, x) {
        if k % 2 == 0 { assert xy[k] < xy[2 * v]; }
      }
      SkipSegments(xy, x, 2, 2 * v);
      assert xy[2 * v - 2] < xy[2 * v];
      AtContaining(xy, x, 2 * v);
      LerpBetween(xy[2 * v - 2], xy[2 * v - 1], xy[2 * v], xy[2 * v + 1], x);
    }
  }

  /** Strictly inside a segment of an increasing pipe the lookup is the straight line. */
  lemma PipeElevationInsideSegment(xy: seq<real>, x: real, j: nat)
    requires StrictlyIncreasingKm(xy) && Encloses(xy, j, x)
    ensures PipeElevationFrom(xy, x, 2) == Some(Lerp(xy[j - 2], xy[j - 1], xy[j], xy[j + 1], x))
  {
    forall k | 2 <= k < j ensures !Contains(xy, k, x) {
      if k % 2 == 0 { assert xy[k] <= xy[j - 2]; }
    }
    SkipSegments(xy, x, 2, j);
    AtContaining(xy, x, j);
  }

  /**
    Outside the distance range of an increasing pipe the lookup returns the last elevation, on the
    near side of the first vertex as well as past the last one.
  */
  lemma PipeElevationOutsideRange(xy: seq<real>, x: real)
    requires StrictlyIncreasingKm(xy) && |xy| >= 2 && |xy| % 2 == 0
    requires x < xy[0] || x > xy[|xy| - 2]
    ensures PipeElevationFrom(xy, x, 2) == Some(xy[|xy| - 1])
  {
    forall k | 2 <= k && k % 2 == 0 && k + 2 <= |xy| ensures xy[0] <= xy[k - 2] && xy[k] <= xy[|xy| - 2] {
    }
    SkipSegments(xy, x, 2, |xy| + 2);
  }
}
