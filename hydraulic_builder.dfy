/**
  HydraulicProfileBuilder: the hydraulic series is re-cut into drawable segments by two rules.

  Walking the points in order, a point beyond the current band's break distance first closes the
  open buffer at an interpolated cut point on the break, and the walk moves to the next band with
  the reference top reset to that band's top level. Then, as long as the point lies more than one
  step below the reference top, a micro-break lowers the reference top by one step, records a
  marker and restarts the buffer at the point. Finally the point itself is appended.

  The walk is specified by functions over a Walk value (one field per local variable of Build);
  the method Build runs the loops of the code and is proved to compute that specification.
*/
module HydraulicBuilder {
  import opened Wrappers
  import opened Geometry
  import opened Domain

  /** The elevation ReadPoints gives a series value at distance km. */
  function PointElevation(km: real, value: real, pipe: seq<real>, opt: HydraulicBuildOptions): real
    requires |pipe| >= 2
  {
    if opt.mode == AbsoluteElevationMeters then value
    else InterpolateYAtX(pipe, km) + value * opt.valueToMetersFactor
  }

  /**
    ReadPoints: one point per (distance, value) pair, in order. An absolute value is the elevation
    itself; otherwise it is a head, scaled to metres and added to the pipe elevation at that distance.
  */
  function ReadHydraulicPoints(series: seq<real>, pipe: seq<real>, opt: HydraulicBuildOptions): (pts: seq<Pt>)
    requires |series| % 2 == 0 && |pipe| >= 2
    ensures 2 * |pts| == |series|
    ensures forall i :: 0 <= i < |pts| ==> pts[i].x == series[2 * i]
    ensures opt.mode == AbsoluteElevationMeters ==> forall i :: 0 <= i < |pts| ==> pts[i].y == series[2 * i + 1]
    ensures forall i :: 0 <= i < |pts| ==> pts[i].y == PointElevation(series[2 * i], series[2 * i + 1], pipe, opt)
  {
    if series == [] then []
    else
      var n := |series|;
      EvenStep(n);
      ReadHydraulicPoints(series[..n - 2], pipe, opt) + [Pt(series[n - 2], PointElevation(series[n - 2], series[n - 1], pipe, opt))]
  }

  /** In absolute mode reading the points loses nothing: flattening them gives back the series. */
  lemma {:induction false} AbsoluteReadRoundTrip(series: seq<real>, pipe: seq<real>, opt: HydraulicBuildOptions)
    requires |series| % 2 == 0 && |pipe| >= 2 && opt.mode == AbsoluteElevationMeters
    ensures Flatten(ReadHydraulicPoints(series, pipe, opt)) == series
  {
    if series != [] {
      var n := |series|;
      var front := series[..n - 2];
      EvenStep(n);
      var pts, last := ReadHydraulicPoints(series, pipe, opt), Pt(series[n - 2], series[n - 1]);
      var init := ReadHydraulicPoints(front, pipe, opt);
      assert pts == init + [last];
      assert pts[..|pts| - 1] == init;
      AbsoluteReadRoundTrip(front, pipe, opt);
      assert Flatten(pts) == front + [last.x, last.y];
      SplitLastPair(series);
    }
  }

  /**
    With a positive factor the sign of a head decides where the point lies: on the pipe for a zero
    head, above it for a positive head, below it for a negative one.
  */
  lemma HeadElevationSign(km: real, value: real, pipe: seq<real>, opt: HydraulicBuildOptions)
    requires |pipe| >= 2 && opt.mode == AddToPipeElevationMeters && opt.valueToMetersFactor > 0.0
    ensures value == 0.0 ==> PointElevation(km, value, pipe, opt) == InterpolateYAtX(pipe, km)
    ensures value > 0.0 ==> PointElevation(km, value, pipe, opt) > InterpolateYAtX(pipe, km)
    ensures value < 0.0 ==> PointElevation(km, value, pipe, opt) < InterpolateYAtX(pipe, km)
  {
    var f := opt.valueToMetersFactor;
    if value > 0.0 {
      PositiveProduct(value, f);
    } else if value < 0.0 {
      PositiveProduct(-value, f);
    }
  }

  /** In head mode a zero head lies on the pipe. */
  lemma ZeroHeadOnPipe(series: seq<real>, pipe: seq<real>, opt: HydraulicBuildOptions, i: nat)
    requires |series| % 2 == 0 && |pipe| >= 2 && opt.mode == AddToPipeElevationMeters
    requires ValidateHydraulicOptions(opt).Pass? && 2 * i + 1 < |series| && series[2 * i + 1] == 0.0
    ensures ReadHydraulicPoints(series, pipe, opt)[i].y == InterpolateYAtX(pipe, series[2 * i])
  {
    HeadElevationSign(series[2 * i], series[2 * i + 1], pipe, opt);
  }

  /** In head mode a positive head lies above the pipe. */
  lemma HeadAbovePipe(series: seq<real>, pipe: seq<real>, opt: HydraulicBuildOptions, i: nat)
    requires |series| % 2 == 0 && |pipe| >= 2 && opt.mode == AddToPipeElevationMeters
    requires ValidateHydraulicOptions(opt).Pass? && 2 * i + 1 < |series| && series[2 * i + 1] > 0.0
    ensures ReadHydraulicPoints(series, pipe, opt)[i].y > InterpolateYAtX(pipe, series[2 * i])
  {
    HeadElevationSign(series[2 * i], series[2 * i + 1], pipe, opt);
  }

  /**
    InterpolateY: the elevation at x on the line through p1 and p2; when both points share their
    distance there is no line and the first elevation is kept.
  */
  function InterpolateY(p1: Pt, p2: Pt, x: real): real {
    var dx := p2.x - p1.x;
    if dx == 0.0 then p1.y
    else p1.y + ((x - p1.x) / dx) * (p2.y - p1.y)
  }

  /** InterpolateY is the straight line through its points; between them it stays between their elevations. */
  lemma InterpolateYOnLine(p1: Pt, p2: Pt, x: real)
    ensures p1.x == p2.x ==> InterpolateY(p1, p2, x) == p1.y
    ensures p1.x != p2.x ==> InterpolateY(p1, p2, x) == Lerp(p1.x, p1.y, p2.x, p2.y, x)
    ensures p1.x < p2.x && p1.x <= x <= p2.x && p1.y <= p2.y ==> p1.y <= InterpolateY(p1, p2, x) <= p2.y
    ensures p1.x < p2.x && p1.x <= x <= p2.x && p2.y <= p1.y ==> p2.y <= InterpolateY(p1, p2, x) <= p1.y
  {
    if p1.x != p2.x {
      var dx, a, dy := p2.x - p1.x, x - p1.x, p2.y - p1.y;
      assert (a / dx) * dy == a * (dy / dx);
      if p1.x < p2.x && p1.x <= x <= p2.x {
        LerpBetween(p1.x, p1.y, p2.x, p2.y, x);
      }
    }
  }

  /** AddSegmentIfValid keeps a buffer of at least two points whose first and last point differ. */
  predicate Keeps(buf: seq<real>) {
    |buf| >= 4 && (buf[0] != buf[|buf| - 2] || buf[1] != buf[|buf| - 1])
  }

  /**
    AddSegmentIfValid: a kept buffer becomes a segment of the band with the reference top in force
    and the band's top level set on it; any other buffer adds nothing.
  */
  function AddSegmentIfValid(segs: seq<HydraulicSegment>, band: int, topRef: real, buf: seq<real>, level: real)
    : (r: seq<HydraulicSegment>)
    requires |buf| % 2 == 0
    ensures !Keeps(buf) ==> r == segs
    ensures Keeps(buf) ==> |r| == |segs| + 1 && r[..|segs|] == segs
    ensures Keeps(buf) ==> IsPairs(r[|segs|].pairs) && r[|segs|].pairs == buf
    ensures Keeps(buf) ==> r[|segs|].bandIndex == band && r[|segs|].topRefMeters == topRef
    ensures Keeps(buf) ==> r[|segs|].bandTopLevelMeters == level
  {
    if |buf| < 4 then segs
    else if buf[|buf| - 2] == buf[0] && buf[|buf| - 1] == buf[1] then segs
    else segs + [NewHydraulicSegment(band, topRef, buf).value.WithBandTopLevel(level)]
  }

  /** What Build returns. */
  datatype BuildResult = BuildResult(segments: seq<HydraulicSegment>, markers: seq<VerticalBreakMarker>)

  /**
    The local state of Build: the segments and markers so far, the open buffer, the band index,
    the break pointer and the reference top. The current band end is derived from the pointer.
  */
  datatype Walk = Walk(segs: seq<HydraulicSegment>, markers: seq<VerticalBreakMarker>, buf: seq<real>,
                       band: int, ptr: nat, topRef: real)

  /** The band end distance of the pointer, or none past the last break (double.MaxValue in the code). */
  function BandEnd(breaks: seq<real>, ptr: nat): Option<real> {
    if ptr < |breaks| then Some(breaks[ptr]) else None
  }

  /** The shape facts every step needs: the band indexes the top levels, the buffer holds whole points. */
  predicate Sound(w: Walk, tops: seq<int>, breaks: seq<real>) {
    0 <= w.band < |tops| && w.ptr <= |breaks| && |w.buf| >= 2 && |w.buf| % 2 == 0
  }

  /** The start of the walk: the first point in band 0 under that band's top level. */
  function Start(p: Pt, tops: seq<int>): Walk
    requires |tops| >= 1
  {
    Walk([], [], [p.x, p.y], 0, 0, tops[0] as real)
  }

  /**
    One pass of the band loop: the cut point at the band end closes the open buffer and starts the
    next one; the band advances (never past the last band), the pointer moves on, and the reference
    top resets to the new band's top level.
  */
  function Cut(w: Walk, prev: Pt, p: Pt, tops: seq<int>, breaks: seq<real>): (r: Walk)
    requires Sound(w, tops, breaks) && w.ptr < |breaks|
    ensures Sound(r, tops, breaks)
  {
    var b := breaks[w.ptr];
    var cut := [b, InterpolateY(prev, p, b)];
    var band := MinInt(w.band + 1, |tops| - 1);
    Walk(AddSegmentIfValid(w.segs, w.band, w.topRef, w.buf + cut, tops[w.band] as real), w.markers,
         cut, band, w.ptr + 1, tops[band] as real)
  }

  /** The band loop at point p (prev is the point before it): cut while p lies beyond the band end. */
  function CrossBands(w: Walk, prev: Pt, p: Pt, tops: seq<int>, breaks: seq<real>): (r: Walk)
    requires Sound(w, tops, breaks)
    ensures Sound(r, tops, breaks) && r.ptr >= w.ptr && r.markers == w.markers
    ensures !(r.ptr < |breaks| && p.x > breaks[r.ptr])
    ensures r.ptr > w.ptr ==> r.topRef == tops[r.band] as real
    ensures r.ptr == w.ptr ==> r == w
    decreases |breaks| - w.ptr
  {
    if w.ptr < |breaks| && p.x > breaks[w.ptr] then CrossBands(Cut(w, prev, p, tops, breaks), prev, p, tops, breaks)
    else w
  }

  /**
    One pass of the micro-break loop at point p: a marker from the reference top one step down, the
    open buffer closed under the old reference top, and a new buffer that starts at p.
  */
  function Drop(w: Walk, p: Pt, tops: seq<int>, breaks: seq<real>, step: real): (r: Walk)
    requires Sound(w, tops, breaks)
    ensures Sound(r, tops, breaks)
  {
    Walk(AddSegmentIfValid(w.segs, w.band, w.topRef, w.buf, tops[w.band] as real),
         w.markers + [VerticalBreakMarker(w.band, p.x, w.topRef, w.topRef - step)],
         [p.x, p.y], w.band, w.ptr, w.topRef - step)
  }

  /** How many whole steps p lies below the reference top; it falls by one with each micro-break. */
  function StepsBelow(topRef: real, p: Pt, step: real): int
    requires step > 0.0
  {
    Floor((topRef - p.y) / step)
  }

  lemma StepsBelowFalls(topRef: real, p: Pt, step: real)
    requires step > 0.0 && p.y < topRef - step
    ensures StepsBelow(topRef, p, step) >= 1
    ensures StepsBelow(topRef - step, p, step) == StepsBelow(topRef, p, step) - 1
  {
    var a := (topRef - p.y) / step;
    assert a * step == topRef - p.y;
    assert a > 1.0;
    var b := (topRef - step - p.y) / step;
    assert step / step == 1.0;
    assert b == a - step / step;
    var f, g := Floor(a), Floor(b);
    assert (g + 1) as real <= a < (g + 1) as real + 1.0;
  }

  /**
    The micro-break loop at point p: drop one step while p lies more than one step below the
    reference top. The band and pointer stay; the reference top ends one step per marker lower,
    and p is no longer more than one step below it.
  */
  function DropBelow(w: Walk, p: Pt, tops: seq<int>, breaks: seq<real>, step: real): (r: Walk)
    requires Sound(w, tops, breaks) && step > 0.0
    ensures Sound(r, tops, breaks) && r.band == w.band && r.ptr == w.ptr
    ensures p.y >= r.topRef - step
    ensures |r.markers| >= |w.markers| && r.markers[..|w.markers|] == w.markers
    ensures r.topRef == w.topRef - (|r.markers| - |w.markers|) as real * step
    ensures |r.markers| == |w.markers| ==> r == w
    decreases StepsBelow(w.topRef, p, step)
  {
    if p.y < w.topRef - step then
      StepsBelowFalls(w.topRef, p, step);
      var d := DropBelow(Drop(w, p, tops, breaks, step), p, tops, breaks, step);
      assert d.markers[..|w.markers|] == d.markers[..|w.markers| + 1][..|w.markers|];
      d
    else w
  }

  /** One iteration of the main loop: the band loop, the micro-break loop, then p as a normal point. */
  function Visit(w: Walk, prev: Pt, p: Pt, tops: seq<int>, breaks: seq<real>, step: real): (r: Walk)
    requires Sound(w, tops, breaks) && step > 0.0
    ensures Sound(r, tops, breaks)
  {
    var d := DropBelow(CrossBands(w, prev, p, tops, breaks), p, tops, breaks, step);
    d.(buf := d.buf + [p.x, p.y])
  }

  /** The state of Build after the main loop has visited points 1 .. n-1. */
  function WalkTo(pts: seq<Pt>, n: nat, tops: seq<int>, breaks: seq<real>, step: real): (r: Walk)
    requires 1 <= n <= |pts| && |tops| >= 1 && step > 0.0
    ensures Sound(r, tops, breaks)
  {
    if n == 1 then Start(pts[0], tops)
    else Visit(WalkTo(pts, n - 1, tops, breaks, step), pts[n - 2], pts[n - 1], tops, breaks, step)
  }

  /** After the loop the open buffer is closed like any other. */
  function Finish(w: Walk, tops: seq<int>, breaks: seq<real>): BuildResult
    requires Sound(w, tops, breaks)
  {
    BuildResult(AddSegmentIfValid(w.segs, w.band, w.topRef, w.buf, tops[w.band] as real), w.markers)
  }

  /**
    What Build computes. The series is checked before the pipe, then the options; a band set
    without bands fails on its first top level; otherwise the points are walked against the
    effective break distances with the configured step.
  */
  function BuildSpec(series: seq<real>, pipe: seq<real>, bands: ProfileBandSet, opt: HydraulicBuildOptions)
    : (r: Result<BuildResult, Error>)
    ensures r.Success? <==> IsPairs(series) && IsPairs(pipe) && ValidateHydraulicOptions(opt).Pass? && bands.BandCount() >= 1
    ensures !IsPairs(series) ==> r == Failure(InvalidPairs("kmValuePairs"))
    ensures IsPairs(series) && !IsPairs(pipe) ==> r == Failure(InvalidPairs("pipeKmElevationPairs"))
    ensures IsPairs(series) && IsPairs(pipe) && ValidateHydraulicOptions(opt).Fail? ==>
      r == Failure(ValidateHydraulicOptions(opt).error)
    ensures IsPairs(series) && IsPairs(pipe) && ValidateHydraulicOptions(opt).Pass? && bands.BandCount() == 0 ==>
      r == Failure(IndexOutOfRange)
  {
    if !IsPairs(series) then Failure(InvalidPairs("kmValuePairs"))
    else if !IsPairs(pipe) then Failure(InvalidPairs("pipeKmElevationPairs"))
    else if ValidateHydraulicOptions(opt).Fail? then Failure(ValidateHydraulicOptions(opt).error)
    else if bands.BandCount() == 0 then Failure(IndexOutOfRange)
    else
      var pts := ReadHydraulicPoints(series, pipe, opt);
      var breaks := EffectiveBreaks(bands.breakKms);
      Success(Finish(WalkTo(pts, |pts|, bands.topLevels, breaks, opt.stepMeters), bands.topLevels, breaks))
  }

  /**
    The band loop of Build at point p: while p lies beyond the band end, the cut point closes the
    buffer and starts the next one, and the band, the pointer, the band end and the reference top
    move on.
  */
  method PassBandEnds(prev: Pt, p: Pt, tops: seq<int>, breaks: seq<real>,
                      segs0: seq<HydraulicSegment>, markers: seq<VerticalBreakMarker>, buf0: seq<real>,
                      band0: int, ptr0: nat, bandEnd0: Option<real>, topRef0: real)
    returns (segs: seq<HydraulicSegment>, buf: seq<real>, band: int, ptr: nat, bandEnd: Option<real>, topRef: real)
    requires Sound(Walk(segs0, markers, buf0, band0, ptr0, topRef0), tops, breaks)
    requires bandEnd0 == BandEnd(breaks, ptr0)
    ensures Walk(segs, markers, buf, band, ptr, topRef) == CrossBands(Walk(segs0, markers, buf0, band0, ptr0, topRef0), prev, p, tops, breaks)
    ensures bandEnd == BandEnd(breaks, ptr)
  {
    segs, buf, band, ptr, bandEnd, topRef := segs0, buf0, band0, ptr0, bandEnd0, topRef0;
    while bandEnd.Some? && p.x > bandEnd.value
      invariant Sound(Walk(segs, markers, buf, band, ptr, topRef), tops, breaks)
      invariant CrossBands(Walk(segs, markers, buf, band, ptr, topRef), prev, p, tops, breaks)
             == CrossBands(Walk(segs0, markers, buf0, band0, ptr0, topRef0), prev, p, tops, breaks)
      invariant bandEnd == BandEnd(breaks, ptr)
      decreases |breaks| - ptr
    {
      segs, buf, band, ptr, bandEnd, topRef := CutAtBandEnd(prev, p, tops, breaks, segs, markers, buf, band, ptr, bandEnd, topRef);
    }
  }

  /**
    One pass of the band-advance loop: the buffer is closed at the cut point on the band's end
    distance, the next buffer starts at that cut point, and the walk moves to the next band with
    the reference top reset to that band's top level.
  */
  method CutAtBandEnd(prev: Pt, p: Pt, tops: seq<int>, breaks: seq<real>,
                      segs0: seq<HydraulicSegment>, markers: seq<VerticalBreakMarker>, buf0: seq<real>,
                      band0: int, ptr0: nat, bandEnd0: Option<real>, topRef0: real)
    returns (segs: seq<HydraulicSegment>, buf: seq<real>, band: int, ptr: nat, bandEnd: Option<real>, topRef: real)
    requires Sound(Walk(segs0, markers, buf0, band0, ptr0, topRef0), tops, breaks)
    requires bandEnd0 == BandEnd(breaks, ptr0) && bandEnd0.Some?
    ensures Walk(segs, markers, buf, band, ptr, topRef) == Cut(Walk(segs0, markers, buf0, band0, ptr0, topRef0), prev, p, tops, breaks)
    ensures bandEnd == BandEnd(breaks, ptr) && ptr == ptr0 + 1
  {
    var cut := Pt(bandEnd0.value, InterpolateY(prev, p, bandEnd0.value));
    EvenStep(|buf0|);
    buf := buf0 + [cut.x, cut.y];
    segs := AddSegmentIfValid(segs0, band0, topRef0, buf, tops[band0] as real);
    buf := [cut.x, cut.y];
    band := MinInt(band0 + 1, |tops| - 1);
    ptr := ptr0 + 1;
    bandEnd := if ptr < |breaks| then Some(breaks[ptr]) else None;
    topRef := tops[band] as real;
  }

  /**
    The micro-break loop of Build at point p: while p lies more than one step below the reference
    top, a marker is recorded, the buffer is closed, the reference top drops one step and the buffer
    restarts at p.
  */
  method MicroBreaks(p: Pt, tops: seq<int>, breaks: seq<real>, step: real,
                     segs0: seq<HydraulicSegment>, markers0: seq<VerticalBreakMarker>, buf0: seq<real>,
                     band: int, ptr: nat, topRef0: real)
    returns (segs: seq<HydraulicSegment>, markers: seq<VerticalBreakMarker>, buf: seq<real>, topRef: real)
    requires Sound(Walk(segs0, markers0, buf0, band, ptr, topRef0), tops, breaks) && step > 0.0
    ensures Walk(segs, markers, buf, band, ptr, topRef) == DropBelow(Walk(segs0, markers0, buf0, band, ptr, topRef0), p, tops, breaks, step)
  {
    segs, markers, buf, topRef := segs0, markers0, buf0, topRef0;
    while p.y < topRef - step
      invariant Sound(Walk(segs, markers, buf, band, ptr, topRef), tops, breaks)
      invariant DropBelow(Walk(segs, markers, buf, band, ptr, topRef), p, tops, breaks, step)
             == DropBelow(Walk(segs0, markers0, buf0, band, ptr, topRef0), p, tops, breaks, step)
      decreases StepsBelow(topRef, p, step)
    {
      StepsBelowFalls(topRef, p, step);
      var from := topRef;
      var to := topRef - step;
      markers := markers + [VerticalBreakMarker(band, p.x, from, to)];
      segs := AddSegmentIfValid(segs, band, topRef, buf, tops[band] as real);
      topRef := to;
      buf := [p.x, p.y];
    }
  }

  /** The level c whole steps below top. */
  function Rung(top: real, c: nat, step: real): real {
    top - c as real * step
  }

  /** x is a whole number of steps (possibly none) below top. */
  ghost predicate OnLadder(x: real, top: real, step: real) {
    exists c: nat :: x == Rung(top, c, step)
  }

  /**
    A segment as AddSegmentIfValid emits it: a pair array of at least two points with distinct
    ends, in a band of the set, carrying that band's top level, under a reference top that is a
    whole number of steps below it.
  */
  ghost predicate SegmentOk(s: HydraulicSegment, tops: seq<int>, step: real) {
    0 <= s.bandIndex < |tops| && IsPairs(s.pairs) && Keeps(s.pairs)
    && s.bandTopLevelMeters == tops[s.bandIndex] as real
    && OnLadder(s.topRefMeters, tops[s.bandIndex] as real, step)
  }

  /**
    A marker as the micro-break loop emits it: in a band of the set, one step down from a reference
    top on that band's ladder, at the distance of a series point that lies below the lower level.
  */
  ghost predicate MarkerOk(m: VerticalBreakMarker, pts: seq<Pt>, tops: seq<int>, step: real) {
    0 <= m.bandIndex < |tops| && m.toTopRef == m.fromTopRef - step
    && OnLadder(m.fromTopRef, tops[m.bandIndex] as real, step)
    && exists j :: 0 <= j < |pts| && pts[j].x == m.km && pts[j].y < m.toTopRef
  }

  /**
    Every segment is well formed and no later than band `band`, and each is no later than the one
    after it; stated from the last segment back, as the list grows.
  */
  ghost predicate SegmentsOk(segs: seq<HydraulicSegment>, tops: seq<int>, step: real, band: int)
    decreases |segs|
  {
    |segs| == 0 ||
    (var last := segs[|segs| - 1];
     SegmentOk(last, tops, step) && last.bandIndex <= band
     && SegmentsOk(segs[..|segs| - 1], tops, step, last.bandIndex))
  }

  /** The same for the markers. */
  ghost predicate MarkersOk(markers: seq<VerticalBreakMarker>, pts: seq<Pt>, tops: seq<int>, step: real, band: int)
    decreases |markers|
  {
    |markers| == 0 ||
    (var last := markers[|markers| - 1];
     MarkerOk(last, pts, tops, step) && last.bandIndex <= band
     && MarkersOk(markers[..|markers| - 1], pts, tops, step, last.bandIndex))
  }

  /** SegmentsOk spelled out: each segment is well formed and the band indexes never decrease. */
  lemma {:induction false} SegmentsOkAll(segs: seq<HydraulicSegment>, tops: seq<int>, step: real, band: int)
    requires SegmentsOk(segs, tops, step, band)
    ensures forall k :: 0 <= k < |segs| ==> SegmentOk(segs[k], tops, step) && segs[k].bandIndex <= band
    ensures forall k1, k2 :: 0 <= k1 <= k2 < |segs| ==> segs[k1].bandIndex <= segs[k2].bandIndex
  {
    if |segs| > 0 {
      var front, last := segs[..|segs| - 1], segs[|segs| - 1];
      SegmentsOkAll(front, tops, step, last.bandIndex);
      assert forall k :: 0 <= k < |front| ==> segs[k] == front[k];
    }
  }

  /** MarkersOk spelled out: each marker is well formed and the band indexes never decrease. */
  lemma {:induction false} MarkersOkAll(markers: seq<VerticalBreakMarker>, pts: seq<Pt>, tops: seq<int>, step: real, band: int)
    requires MarkersOk(markers, pts, tops, step, band)
    ensures forall k :: 0 <= k < |markers| ==> MarkerOk(markers[k], pts, tops, step) && markers[k].bandIndex <= band
    ensures forall k1, k2 :: 0 <= k1 <= k2 < |markers| ==> markers[k1].bandIndex <= markers[k2].bandIndex
  {
    if |markers| > 0 {
      var front, last := markers[..|markers| - 1], markers[|markers| - 1];
      MarkersOkAll(front, pts, tops, step, last.bandIndex);
      assert forall k :: 0 <= k < |front| ==> markers[k] == front[k];
    }
  }

  /**
    What holds of the walk's state between steps: the band index is the number of passed breaks,
    clamped to the last band; the reference top is on the current band's ladder; what was emitted
    so far is well formed.
  */
  ghost predicate WalkOk(w: Walk, pts: seq<Pt>, tops: seq<int>, breaks: seq<real>, step: real) {
    Sound(w, tops, breaks) && w.band == MinInt(w.ptr, |tops| - 1)
    && OnLadder(w.topRef, tops[w.band] as real, step)
    && SegmentsOk(w.segs, tops, step, w.band)
    && MarkersOk(w.markers, pts, tops, step, w.band)
  }

  /** Closing a buffer in the current band keeps the segments well formed. */
  lemma AddKeepsSegmentsOk(segs: seq<HydraulicSegment>, band: int, topRef: real, buf: seq<real>, tops: seq<int>, step: real)
    requires |buf| % 2 == 0 && 0 <= band < |tops| && OnLadder(topRef, tops[band] as real, step)
    requires SegmentsOk(segs, tops, step, band)
    ensures SegmentsOk(AddSegmentIfValid(segs, band, topRef, buf, tops[band] as real), tops, step, band)
  {
    var r := AddSegmentIfValid(segs, band, topRef, buf, tops[band] as real);
    if Keeps(buf) {
      assert r == segs + [r[|segs|]];
      assert SegmentOk(r[|segs|], tops, step);
    }
  }

  /** Emitted items of earlier bands stay no later than a later band. */
  lemma LaterBandKeepsOk(w: Walk, pts: seq<Pt>, tops: seq<int>, step: real, band: int)
    requires SegmentsOk(w.segs, tops, step, w.band) && MarkersOk(w.markers, pts, tops, step, w.band) && w.band <= band
    ensures SegmentsOk(w.segs, tops, step, band) && MarkersOk(w.markers, pts, tops, step, band)
  {
  }

  /** A band cut keeps the invariant: the new reference top is the new band's top level itself. */
  lemma CutOk(w: Walk, prev: Pt, p: Pt, pts: seq<Pt>, tops: seq<int>, breaks: seq<real>, step: real)
    requires WalkOk(w, pts, tops, breaks, step) && w.ptr < |breaks|
    ensures WalkOk(Cut(w, prev, p, tops, breaks), pts, tops, breaks, step)
  {
    var r := Cut(w, prev, p, tops, breaks);
    AddKeepsSegmentsOk(w.segs, w.band, w.topRef, w.buf + r.buf, tops, step);
    var mid := w.(segs := r.segs);
    LaterBandKeepsOk(mid, pts, tops, step, r.band);
    assert Rung(tops[r.band] as real, 0, step) == r.topRef;
  }

  lemma {:induction false} CrossBandsOk(w: Walk, prev: Pt, p: Pt, pts: seq<Pt>, tops: seq<int>, breaks: seq<real>, step: real)
    requires WalkOk(w, pts, tops, breaks, step)
    ensures WalkOk(CrossBands(w, prev, p, tops, breaks), pts, tops, breaks, step)
    decreases |breaks| - w.ptr
  {
    if w.ptr < |breaks| && p.x > breaks[w.ptr] {
      CutOk(w, prev, p, pts, tops, breaks, step);
      CrossBandsOk(Cut(w, prev, p, tops, breaks), prev, p, pts, tops, breaks, step);
    }
  }

  /** A micro-break at series point j keeps the invariant: one step down stays on the ladder. */
  lemma DropOk(w: Walk, pts: seq<Pt>, j: nat, tops: seq<int>, breaks: seq<real>, step: real)
    requires WalkOk(w, pts, tops, breaks, step) && j < |pts| && pts[j].y < w.topRef - step
    ensures WalkOk(Drop(w, pts[j], tops, breaks, step), pts, tops, breaks, step)
  {
    var p := pts[j];
    var r := Drop(w, p, tops, breaks, step);
    var top := tops[w.band] as real;
    AddKeepsSegmentsOk(w.segs, w.band, w.topRef, w.buf, tops, step);
    var c: nat :| w.topRef == Rung(top, c, step);
    assert Rung(top, c + 1, step) == r.topRef;
    var m := r.markers[|w.markers|];
    assert OnLadder(m.fromTopRef, top, step);
    assert MarkerOk(m, pts, tops, step);
    assert r.markers == w.markers + [m];
  }

  lemma {:induction false} DropBelowOk(w: Walk, pts: seq<Pt>, j: nat, tops: seq<int>, breaks: seq<real>, step: real)
    requires WalkOk(w, pts, tops, breaks, step) && j < |pts| && step > 0.0
    ensures WalkOk(DropBelow(w, pts[j], tops, breaks, step), pts, tops, breaks, step)
    decreases StepsBelow(w.topRef, pts[j], step)
  {
    var p := pts[j];
    if p.y < w.topRef - step {
      StepsBelowFalls(w.topRef, p, step);
      DropOk(w, pts, j, tops, breaks, step);
      DropBelowOk(Drop(w, p, tops, breaks, step), pts, j, tops, breaks, step);
    }
  }

  lemma {:induction false} WalkToOk(pts: seq<Pt>, n: nat, tops: seq<int>, breaks: seq<real>, step: real)
    requires 1 <= n <= |pts| && |tops| >= 1 && step > 0.0
    ensures WalkOk(WalkTo(pts, n, tops, breaks, step), pts, tops, breaks, step)
  {
    if n == 1 {
      StartOk(pts, tops, breaks, step);
    } else {
      WalkToOk(pts, n - 1, tops, breaks, step);
      var w := WalkTo(pts, n - 1, tops, breaks, step);
      VisitOk(w, pts[n - 2], pts, n - 1, tops, breaks, step);
      assert WalkTo(pts, n, tops, breaks, step) == Visit(w, pts[n - 2], pts[n - 1], tops, breaks, step);
    }
  }

  /** The walk starts in band 0 on the top rung, with nothing emitted. */
  lemma StartOk(pts: seq<Pt>, tops: seq<int>, breaks: seq<real>, step: real)
    requires |pts| >= 1 && |tops| >= 1 && step > 0.0
    ensures WalkOk(Start(pts[0], tops), pts, tops, breaks, step)
  {
    assert Rung(tops[0] as real, 0, step) == tops[0] as real;
  }

  /** Visiting series point j keeps the invariant. */
  lemma VisitOk(w: Walk, prev: Pt, pts: seq<Pt>, j: nat, tops: seq<int>, breaks: seq<real>, step: real)
    requires WalkOk(w, pts, tops, breaks, step) && j < |pts| && step > 0.0
    ensures WalkOk(Visit(w, prev, pts[j], tops, breaks, step), pts, tops, breaks, step)
  {
    var p := pts[j];
    var c := CrossBands(w, prev, p, tops, breaks);
    CrossBandsOk(w, prev, p, pts, tops, breaks, step);
    DropBelowOk(c, pts, j, tops, breaks, step);
  }

  /**
    Every segment Build returns is a pair array of at least two points with distinct first and last
    points, in a band of the set, with BandTopLevelMeters the band's top level and a reference top a
    whole number of steps below it; band indexes never decrease along the list.
  */
  lemma BuildSegmentsWellFormed(series: seq<real>, pipe: seq<real>, bands: ProfileBandSet, opt: HydraulicBuildOptions)
    requires BuildSpec(series, pipe, bands, opt).Success?
    ensures var segs := BuildSpec(series, pipe, bands, opt).value.segments;
      forall k :: 0 <= k < |segs| ==> SegmentOk(segs[k], bands.topLevels, opt.stepMeters)
    ensures var segs := BuildSpec(series, pipe, bands, opt).value.segments;
      forall k1, k2 :: 0 <= k1 <= k2 < |segs| ==> segs[k1].bandIndex <= segs[k2].bandIndex
  {
    var pts := ReadHydraulicPoints(series, pipe, opt);
    var breaks := EffectiveBreaks(bands.breakKms);
    var w := WalkTo(pts, |pts|, bands.topLevels, breaks, opt.stepMeters);
    WalkToOk(pts, |pts|, bands.topLevels, breaks, opt.stepMeters);
    var segs := AddSegmentIfValid(w.segs, w.band, w.topRef, w.buf, bands.topLevels[w.band] as real);
    AddKeepsSegmentsOk(w.segs, w.band, w.topRef, w.buf, bands.topLevels, opt.stepMeters);
    SegmentsOkAll(segs, bands.topLevels, opt.stepMeters, w.band);
  }

  /**
    Every marker Build returns steps down exactly one step from a reference top on its band's
    ladder, in a band of the set, at the distance of a series point lying below the lower level;
    band indexes never decrease along the list.
  */
  lemma BuildMarkersWellFormed(series: seq<real>, pipe: seq<real>, bands: ProfileBandSet, opt: HydraulicBuildOptions)
    requires BuildSpec(series, pipe, bands, opt).Success?
    ensures var pts := ReadHydraulicPoints(series, pipe, opt);
      var markers := BuildSpec(series, pipe, bands, opt).value.markers;
      forall k :: 0 <= k < |markers| ==> MarkerOk(markers[k], pts, bands.topLevels, opt.stepMeters)
    ensures var markers := BuildSpec(series, pipe, bands, opt).value.markers;
      forall k1, k2 :: 0 <= k1 <= k2 < |markers| ==> markers[k1].bandIndex <= markers[k2].bandIndex
  {
    var pts := ReadHydraulicPoints(series, pipe, opt);
    var w := WalkTo(pts, |pts|, bands.topLevels, EffectiveBreaks(bands.breakKms), opt.stepMeters);
    WalkToOk(pts, |pts|, bands.topLevels, EffectiveBreaks(bands.breakKms), opt.stepMeters);
    MarkersOkAll(w.markers, pts, bands.topLevels, opt.stepMeters, w.band);
  }

  /**
    A band cut ends the closed buffer with the cut point and starts the next buffer with it; the cut
    lies on the break distance, and between the two points it is cut between when the break lies
    between their distances.
  */
  lemma CutJoinsSegments(w: Walk, prev: Pt, p: Pt, tops: seq<int>, breaks: seq<real>)
    requires Sound(w, tops, breaks) && w.ptr < |breaks|
    ensures var r := Cut(w, prev, p, tops, breaks);
      r.buf[0] == breaks[w.ptr] && |r.buf| == 2
    ensures var r := Cut(w, prev, p, tops, breaks);
      |r.segs| > |w.segs| ==> r.segs[|w.segs|].pairs[|r.segs[|w.segs|].pairs| - 2..] == r.buf
    ensures var r := Cut(w, prev, p, tops, breaks);
      prev.x < breaks[w.ptr] < p.x ==>
        (prev.y <= r.buf[1] <= p.y) || (p.y <= r.buf[1] <= prev.y)
  {
    var b := breaks[w.ptr];
    var r := Cut(w, prev, p, tops, breaks);
    if |r.segs| > |w.segs| {
      var q := r.segs[|w.segs|].pairs;
      assert q == w.buf + r.buf;
      assert q[|q| - 2..] == r.buf;
    }
    if prev.x < b < p.x {
      InterpolateYOnLine(prev, p, b);
    }
  }

  /**
    A micro-break at p records a marker one step down from the reference top in force, at p's
    distance, closes the open buffer under the old reference top, and restarts the buffer at p.
  */
  lemma MicroBreakRestarts(w: Walk, p: Pt, tops: seq<int>, breaks: seq<real>, step: real)
    requires Sound(w, tops, breaks)
    ensures var r := Drop(w, p, tops, breaks, step);
      r.buf == [p.x, p.y] && r.markers == w.markers + [VerticalBreakMarker(w.band, p.x, w.topRef, w.topRef - step)]
    ensures var r := Drop(w, p, tops, breaks, step);
      |r.segs| > |w.segs| ==> r.segs[|w.segs|].pairs == w.buf && r.segs[|w.segs|].topRefMeters == w.topRef
    ensures var r := Drop(w, p, tops, breaks, step);
      r.topRef == w.topRef - step && r.band == w.band && r.ptr == w.ptr
  {
  }

  /** After at least one micro-break the buffer holds p alone. */
  lemma {:induction false} DropBelowRestarts(w: Walk, p: Pt, tops: seq<int>, breaks: seq<real>, step: real)
    requires Sound(w, tops, breaks) && step > 0.0
    ensures |DropBelow(w, p, tops, breaks, step).markers| > |w.markers| ==> DropBelow(w, p, tops, breaks, step).buf == [p.x, p.y]
    decreases StepsBelow(w.topRef, p, step)
  {
    if p.y < w.topRef - step {
      StepsBelowFalls(w.topRef, p, step);
      var d := Drop(w, p, tops, breaks, step);
      DropBelowRestarts(d, p, tops, breaks, step);
    }
  }

  /**
    One visit of a point: the point is appended last, at or above one step below the reference top
    then in force. After a micro-break the point starts the new buffer and is appended again, so it
    appears twice.
  */
  lemma VisitAppendsAboveLimit(w: Walk, prev: Pt, p: Pt, tops: seq<int>, breaks: seq<real>, step: real)
    requires Sound(w, tops, breaks) && step > 0.0
    ensures var r := Visit(w, prev, p, tops, breaks, step);
      r.buf[|r.buf| - 2..] == [p.x, p.y] && p.y >= r.topRef - step
    ensures var r := Visit(w, prev, p, tops, breaks, step);
      |r.markers| > |w.markers| ==> r.buf == [p.x, p.y, p.x, p.y]
  {
    var c := CrossBands(w, prev, p, tops, breaks);
    DropBelowRestarts(c, p, tops, breaks, step);
  }

  /**
    The reference top after one visit: within a band it drops by exactly one step per marker; when
    a break was passed it was reset to the new band's top level first.
  */
  lemma VisitLowersReference(w: Walk, prev: Pt, p: Pt, tops: seq<int>, breaks: seq<real>, step: real)
    requires Sound(w, tops, breaks) && step > 0.0
    ensures var r := Visit(w, prev, p, tops, breaks, step);
      r.ptr == w.ptr ==> r.topRef == w.topRef - (|r.markers| - |w.markers|) as real * step
    ensures var r := Visit(w, prev, p, tops, breaks, step);
      r.ptr > w.ptr ==> r.topRef == tops[r.band] as real - (|r.markers| - |w.markers|) as real * step
  {
    var c := CrossBands(w, prev, p, tops, breaks);
    assert c.markers == w.markers;
  }

  /** With no break to pass and no point more than a step below band 0's top, the walk only appends. */
  lemma {:induction false} QuietWalk(pts: seq<Pt>, n: nat, tops: seq<int>, step: real)
    requires 1 <= n <= |pts| && |tops| >= 1 && step > 0.0
    requires forall k :: 0 <= k < |pts| ==> pts[k].y >= tops[0] as real - step
    ensures WalkTo(pts, n, tops, [], step) == Walk([], [], Flatten(pts[..n]), 0, 0, tops[0] as real)
  {
    if n == 1 {
      assert pts[..1][..0] == [];
    } else {
      QuietWalk(pts, n - 1, tops, step);
      QuietVisit(WalkTo(pts, n - 1, tops, [], step), pts[n - 2], pts[n - 1], tops, step);
      FlattenPrefixStep(pts, n);
    }
  }

  lemma FlattenPrefixStep(pts: seq<Pt>, n: nat)
    requires 1 <= n <= |pts|
    ensures Flatten(pts[..n]) == Flatten(pts[..n - 1]) + [pts[n - 1].x, pts[n - 1].y]
  {
    assert pts[..n][..n - 1] == pts[..n - 1];
  }

  /** Without breaks, a point at most one step below the reference top is only appended. */
  lemma QuietVisit(w: Walk, prev: Pt, p: Pt, tops: seq<int>, step: real)
    requires Sound(w, tops, []) && step > 0.0 && p.y >= w.topRef - step
    ensures Visit(w, prev, p, tops, [], step) == w.(buf := w.buf + [p.x, p.y])
  {
    assert CrossBands(w, prev, p, tops, []) == w;
  }

  /**
    In absolute mode, without effective breaks and with no value more than a step below the first
    band's top level, Build records no marker and returns the whole series as one segment of band 0
    (none when its first and last point coincide).
  */
  lemma QuietSeriesSingleSegment(series: seq<real>, pipe: seq<real>, bands: ProfileBandSet, opt: HydraulicBuildOptions)
    requires BuildSpec(series, pipe, bands, opt).Success?
    requires opt.mode == AbsoluteElevationMeters && EffectiveBreaks(bands.breakKms) == []
    requires forall k :: 0 <= k < |series| / 2 ==> series[2 * k + 1] >= bands.topLevels[0] as real - opt.stepMeters
    ensures BuildSpec(series, pipe, bands, opt).value.markers == []
    ensures var top := bands.topLevels[0] as real;
      BuildSpec(series, pipe, bands, opt).value.segments == if Keeps(series) then [HydraulicSegment(0, top, series, top)] else []
  {
    var pts := ReadHydraulicPoints(series, pipe, opt);
    var tops, top := bands.topLevels, bands.topLevels[0] as real;
    QuietSeriesWalk(series, pipe, tops, opt);
    var w := WalkTo(pts, |pts|, tops, [], opt.stepMeters);
    assert BuildSpec(series, pipe, bands, opt).value == Finish(w, tops, []);
    var segs := AddSegmentIfValid([], 0, top, series, top);
    if Keeps(series) {
      assert segs == [HydraulicSegment(0, top, series, top)];
    }
  }

  /** The quiet walk over the points read from an absolute series only gathers the series in the buffer. */
  lemma QuietSeriesWalk(series: seq<real>, pipe: seq<real>, tops: seq<int>, opt: HydraulicBuildOptions)
    requires IsPairs(series) && |pipe| >= 2 && |tops| >= 1 && opt.stepMeters > 0.0
    requires opt.mode == AbsoluteElevationMeters
    requires forall k :: 0 <= k < |series| / 2 ==> series[2 * k + 1] >= tops[0] as real - opt.stepMeters
    ensures var pts := ReadHydraulicPoints(series, pipe, opt);
      WalkTo(pts, |pts|, tops, [], opt.stepMeters) == Walk([], [], series, 0, 0, tops[0] as real)
  {
    var pts := ReadHydraulicPoints(series, pipe, opt);
    QuietWalk(pts, |pts|, tops, opt.stepMeters);
    AbsoluteReadRoundTrip(series, pipe, opt);
    assert pts[..|pts|] == pts;
  }

  /** The loop over the points of Build, from the start point to the closing of the last buffer. */
  method WalkPoints(pts: seq<Pt>, tops: seq<int>, bandBreaks: seq<real>, step: real) returns (res: BuildResult)
    requires |pts| >= 1 && |tops| >= 1 && step > 0.0
    ensures res == Finish(WalkTo(pts, |pts|, tops, bandBreaks, step), tops, bandBreaks)
  {
    var segs: seq<HydraulicSegment> := [];
    var markers: seq<VerticalBreakMarker> := [];
    var bandIndex := 0;
    var breakPtr: nat := 0;
    var bandEndKm := if |bandBreaks| > 0 then Some(bandBreaks[0]) else None;
    var topRef := tops[bandIndex] as real;
    var buf := [pts[0].x, pts[0].y];
    var i := 1;
    while i < |pts|
      invariant 1 <= i <= |pts|
      invariant Walk(segs, markers, buf, bandIndex, breakPtr, topRef) == WalkTo(pts, i, tops, bandBreaks, step)
      invariant bandEndKm == BandEnd(bandBreaks, breakPtr)
    {
      var p := pts[i];
      ghost var w := WalkTo(pts, i, tops, bandBreaks, step);
      segs, buf, bandIndex, breakPtr, bandEndKm, topRef :=
        PassBandEnds(pts[i - 1], p, tops, bandBreaks, segs, markers, buf, bandIndex, breakPtr, bandEndKm, topRef);
      segs, markers, buf, topRef := MicroBreaks(p, tops, bandBreaks, step, segs, markers, buf, bandIndex, breakPtr, topRef);
      buf := buf + [p.x, p.y];
      assert Walk(segs, markers, buf, bandIndex, breakPtr, topRef) == Visit(w, pts[i - 1], p, tops, bandBreaks, step);
      i := i + 1;
    }
    segs := AddSegmentIfValid(segs, bandIndex, topRef, buf, tops[bandIndex] as real);
    res := BuildResult(segs, markers);
  }

  /**
    Build: the shape checks, the option check, the point reading, then the walk with a band loop
    and a micro-break loop inside the loop over the points.
  */
  method Build(series: seq<real>, pipe: seq<real>, bands: ProfileBandSet, options: HydraulicBuildOptions)
    returns (r: Result<BuildResult, Error>)
    ensures r == BuildSpec(series, pipe, bands, options)
  {
    if |series| < 4 || |series| % 2 != 0 {
      return Failure(InvalidPairs("kmValuePairs"));
    }
    if |pipe| < 4 || |pipe| % 2 != 0 {
      return Failure(InvalidPairs("pipeKmElevationPairs"));
    }
    var v := ValidateHydraulicOptions(options);
    if v.Fail? {
      return Failure(v.error);
    }
    var pts := ReadHydraulicPoints(series, pipe, options);
    var bandBreaks := EffectiveBreaks(bands.breakKms);
    var tops := bands.topLevels;
    if |tops| == 0 {
      return Failure(IndexOutOfRange);
    }
    var res := WalkPoints(pts, tops, bandBreaks, options.stepMeters);
    r := Success(res);
  }
}
