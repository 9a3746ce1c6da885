/**
  Band generation (ProfileBandService).

  BuildBands scans the route at every tenth of a kilometre. A top candidate follows the ground up
  (rounded up to a whole metre) and a base candidate follows the pipe down (rounded down). Once the
  candidates are more than 13 m apart a 13 m band is emitted and both candidates restart at the
  current sample. After the scan a closing band hangs 13 m below the last top candidate. The scan
  aborts as soon as the pipe lies above the ground.

  BuildBreakKms then collects a break distance per crossing (the pipe falling below the current
  band's base, the ground rising above its top), fits the list to the number of bands and forces
  the last break to the route end.
*/
module BandService {
  import opened Wrappers
  import opened Geometry
  import opened Domain

  const ScanStepKm: real := 0.1
  const BandHeight: int := 13

  /** The k-th scan distance. The code accumulates 0.1 in floating point; here it is exact. */
  function ScanKm(k: nat): real {
    k as real * ScanStepKm
  }

  /** The scan runs for k = 1, 2, ... while k/10 <= endKm: that is SampleCount(endKm) samples. */
  function SampleCount(endKm: real): (n: nat)
    ensures forall k: nat :: 1 <= k ==> (ScanKm(k) <= endKm <==> k <= n)
  {
    if endKm * 10.0 < 1.0 then 0 else (endKm * 10.0).Floor
  }

  /** The route end: the larger of the last ground and the last pipe distance. */
  function EndKm(ground: seq<real>, pipe: seq<real>): real
    requires |ground| >= 2 && |pipe| >= 2
  {
    Max(ground[|ground| - 2], pipe[|pipe| - 2])
  }

  function GroundAt(ground: seq<real>, k: nat): real
    requires |ground| >= 2
  {
    InterpolateYAtX(ground, ScanKm(k))
  }

  function PipeAt(pipe: seq<real>, k: nat): real
    requires |pipe| >= 2
  {
    InterpolateYAtX(pipe, ScanKm(k))
  }

  /** At sample k the interpolated pipe lies strictly above the interpolated ground. */
  predicate PipeAboveAt(ground: seq<real>, pipe: seq<real>, k: nat)
    requires |ground| >= 2 && |pipe| >= 2
  {
    PipeAt(pipe, k) > GroundAt(ground, k)
  }

  predicate PipeNeverAboveGround(ground: seq<real>, pipe: seq<real>)
    requires |ground| >= 2 && |pipe| >= 2
  {
    forall k: nat :: 1 <= k <= SampleCount(EndKm(ground, pipe)) ==> !PipeAboveAt(ground, pipe, k)
  }

  /** k is the first sample at which the pipe is above the ground. */
  predicate FirstPipeAbove(ground: seq<real>, pipe: seq<real>, k: nat)
    requires |ground| >= 2 && |pipe| >= 2
  {
    1 <= k <= SampleCount(EndKm(ground, pipe)) && PipeAboveAt(ground, pipe, k)
    && forall j: nat :: 1 <= j < k ==> !PipeAboveAt(ground, pipe, j)
  }

  /** The scan's variables: the two candidates and the bands emitted so far. */
  datatype ScanState = ScanState(top: int, base: int, tops: seq<int>, bases: seq<int>)

  /** One scan sample with ground elevation ge and pipe elevation pe (the pipe not above the ground). */
  function ScanStep(s: ScanState, ge: real, pe: real): ScanState {
    var raised := ge > s.top as real;
    var lowered := pe < s.base as real;
    var top := if raised then Ceil(ge) else s.top;
    var base := if lowered then Floor(pe) else s.base;
    if top - base > BandHeight then
      // the base branch runs first and may restart the candidates the top branch then reads
      var afterBase :=
        if lowered then ScanState(Ceil(ge), Floor(pe), s.tops + [top], s.bases + [top - BandHeight])
        else ScanState(top, base, s.tops, s.bases);
      if raised then
        ScanState(Ceil(ge), Floor(pe), afterBase.tops + [afterBase.base + BandHeight], afterBase.bases + [afterBase.base])
      else afterBase
    else ScanState(top, base, s.tops, s.bases)
  }

  /** The scan state after samples 1..n, starting from the first ground and pipe elevations. */
  function ScanUpTo(ground: seq<real>, pipe: seq<real>, n: nat): ScanState
    requires |ground| >= 2 && |pipe| >= 2
  {
    if n == 0 then ScanState(Ceil(ground[1]), Floor(pipe[1]), [], [])
    else ScanStep(ScanUpTo(ground, pipe, n - 1), GroundAt(ground, n), PipeAt(pipe, n))
  }

  /** The band levels of a completed scan: the emitted bands and the closing band. */
  function ScanTops(ground: seq<real>, pipe: seq<real>): seq<int>
    requires |ground| >= 2 && |pipe| >= 2
  {
    var s := ScanUpTo(ground, pipe, SampleCount(EndKm(ground, pipe)));
    s.tops + [s.top]
  }

  function ScanBases(ground: seq<real>, pipe: seq<real>): seq<int>
    requires |ground| >= 2 && |pipe| >= 2
  {
    var s := ScanUpTo(ground, pipe, SampleCount(EndKm(ground, pipe)));
    s.bases + [s.top - BandHeight]
  }

  predicate HeightsAre13(tops: seq<int>, bases: seq<int>) {
    |tops| == |bases| && forall i :: 0 <= i < |tops| ==> tops[i] - bases[i] == BandHeight
  }

  /** A scan step emits only 13 m bands, in both reset branches. */
  lemma ScanStepKeepsHeights(s: ScanState, ge: real, pe: real)
    requires HeightsAre13(s.tops, s.bases)
    ensures HeightsAre13(ScanStep(s, ge, pe).tops, ScanStep(s, ge, pe).bases)
    ensures |s.tops| <= |ScanStep(s, ge, pe).tops| <= |s.tops| + 2
  {
  }

  lemma {:induction false} ScanKeepsHeights(ground: seq<real>, pipe: seq<real>, n: nat)
    requires |ground| >= 2 && |pipe| >= 2
    ensures HeightsAre13(ScanUpTo(ground, pipe, n).tops, ScanUpTo(ground, pipe, n).bases)
  {
    if n > 0 {
      ScanKeepsHeights(ground, pipe, n - 1);
      ScanStepKeepsHeights(ScanUpTo(ground, pipe, n - 1), GroundAt(ground, n), PipeAt(pipe, n));
    }
  }

  /** Every band of a completed scan, the closing band included, is exactly 13 m high. */
  lemma BandsAre13High(ground: seq<real>, pipe: seq<real>)
    requires |ground| >= 2 && |pipe| >= 2
    ensures |ScanTops(ground, pipe)| >= 1
    ensures HeightsAre13(ScanTops(ground, pipe), ScanBases(ground, pipe))
  {
    ScanKeepsHeights(ground, pipe, SampleCount(EndKm(ground, pipe)));
  }

  /**
    After each sample the top candidate is at or above that sample's ground and the base candidate
    at or below its pipe; in particular the closing band's top covers the ground at the last sample.
  */
  lemma ScanCandidatesCoverSample(ground: seq<real>, pipe: seq<real>, n: nat)
    requires |ground| >= 2 && |pipe| >= 2 && n >= 1
    ensures ScanUpTo(ground, pipe, n).top as real >= GroundAt(ground, n)
    ensures ScanUpTo(ground, pipe, n).base as real <= PipeAt(pipe, n)
  {
  }

  /** Where a break comes from: a pipe segment ending below a base, or a ground vertex above a top. */
  datatype Source = PipeSegment(l: nat) | GroundVertex(l: nat, m: nat)

  /** The band whose level the i-th collected break refers to: the cursor stops at the last band. */
  function LevelIndex(i: nat, n: nat): (k: nat)
    requires n >= 1
    ensures k < n && (i < n ==> k == i) && (i >= n ==> k == n - 1)
  {
    if i < n then i else n - 1
  }

  /**
    The distance where the line through (x1, y1), (x2, y2) reaches the level, computed as the code
    does: through the reciprocal of the slope. A flat segment has slope 0 and IEEE arithmetic then
    gives minus infinity (the segment ends below the level, so the level difference is negative).
  */
  function PipeCrossing(x1: real, y1: real, x2: real, y2: real, level: real): BreakKm
    requires x1 < x2 && y2 < level
  {
    if y1 == y2 then NegInfinity
    else
      var slope := (y1 - y2) / (x2 - x1);
      assert slope * (x2 - x1) == y1 - y2;
      Finite(x1 + (1.0 / slope) * (y1 - level))
  }

  /** The same for a ground segment ending above a top level. */
  function GroundCrossing(x0: real, y0: real, x1: real, y1: real, level: real): BreakKm
    requires x0 < x1 && y1 > level
  {
    if y1 == y0 then NegInfinity
    else
      var slope := (y1 - y0) / (x1 - x0);
      assert slope * (x1 - x0) == y1 - y0;
      Finite(x0 + (1.0 / slope) * (level - y0))
  }

  /** The conditions under which the code adds a break for source s as the i-th break. */
  predicate SourceOk(ground: seq<real>, pipe: seq<real>, tops: seq<int>, bases: seq<int>, s: Source, i: nat)
    requires |tops| == |bases| >= 1
  {
    var k := LevelIndex(i, |tops|);
    2 <= s.l && s.l % 2 == 0 && s.l + 2 <= |pipe|
    && match s
       case PipeSegment(l) => pipe[l + 1] < bases[k] as real
       case GroundVertex(l, m) =>
         2 <= m && m % 2 == 0 && m + 2 <= |ground|
         && pipe[l - 2] < ground[m] <= pipe[l] && ground[m + 1] > tops[k] as real
  }

  function CrossingValue(ground: seq<real>, pipe: seq<real>, tops: seq<int>, bases: seq<int>, s: Source, i: nat): BreakKm
    requires |tops| == |bases| >= 1
    requires StrictlyIncreasingKm(ground) && StrictlyIncreasingKm(pipe)
    requires SourceOk(ground, pipe, tops, bases, s, i)
  {
    var k := LevelIndex(i, |tops|);
    match s
    case PipeSegment(l) => PipeCrossing(pipe[l - 2], pipe[l - 1], pipe[l], pipe[l + 1], bases[k] as real)
    case GroundVertex(l, m) => GroundCrossing(ground[m - 2], ground[m - 1], ground[m], ground[m + 1], tops[k] as real)
  }

  /** b is a break the code can add as its i-th break. */
  ghost predicate IsCrossing(ground: seq<real>, pipe: seq<real>, tops: seq<int>, bases: seq<int>, i: nat, b: BreakKm)
    requires |tops| == |bases| >= 1
    requires StrictlyIncreasingKm(ground) && StrictlyIncreasingKm(pipe)
  {
    exists s: Source :: SourceOk(ground, pipe, tops, bases, s, i) && CrossingValue(ground, pipe, tops, bases, s, i) == b
  }

  /** Every collected break comes from its source, in collection order. */
  predicate Collected(ground: seq<real>, pipe: seq<real>, tops: seq<int>, bases: seq<int>, acc: seq<BreakKm>, src: seq<Source>)
    requires |tops| == |bases| >= 1
    requires StrictlyIncreasingKm(ground) && StrictlyIncreasingKm(pipe)
  {
    |src| == |acc|
    && forall i :: 0 <= i < |acc| ==>
         SourceOk(ground, pipe, tops, bases, src[i], i) && acc[i] == CrossingValue(ground, pipe, tops, bases, src[i], i)
  }

  /** Scan position of a source: pipe segments in order, and within a segment the ground vertices in order. */
  function Rank(s: Source): nat {
    match s
    case PipeSegment(_) => 0
    case GroundVertex(_, m) => m
  }

  predicate NotAfter(a: Source, b: Source) {
    a.l < b.l || (a.l == b.l && Rank(a) <= Rank(b))
  }

  predicate InScanOrder(src: seq<Source>) {
    forall i, j :: 0 <= i < j < |src| ==> NotAfter(src[i], src[j])
  }

  lemma CollectAppend(ground: seq<real>, pipe: seq<real>, tops: seq<int>, bases: seq<int>,
                      acc: seq<BreakKm>, src: seq<Source>, s: Source)
    requires |tops| == |bases| >= 1
    requires StrictlyIncreasingKm(ground) && StrictlyIncreasingKm(pipe)
    requires Collected(ground, pipe, tops, bases, acc, src)
    requires SourceOk(ground, pipe, tops, bases, s, |acc|)
    requires InScanOrder(src) && forall i :: 0 <= i < |src| ==> NotAfter(src[i], s)
    ensures Collected(ground, pipe, tops, bases, acc + [CrossingValue(ground, pipe, tops, bases, s, |acc|)], src + [s])
    ensures InScanOrder(src + [s])
  {
  }

  /** One break added by an inner loop of BuildBreakKms keeps the loop's invariants about the added breaks. */
  lemma CollectStep(ground: seq<real>, pipe: seq<real>, tops: seq<int>, bases: seq<int>,
                    acc0: seq<BreakKm>, acc: seq<BreakKm>, src: seq<Source>, s: Source)
    requires |tops| == |bases| >= 1
    requires StrictlyIncreasingKm(ground) && StrictlyIncreasingKm(pipe)
    requires |acc0| <= |acc| && acc[..|acc0|] == acc0
    requires Collected(ground, pipe, tops, bases, acc, src) && InScanOrder(src)
    requires forall i :: |acc0| <= i < |acc| ==> src[i] == s
    requires forall i :: 0 <= i < |src| ==> NotAfter(src[i], s)
    requires SourceOk(ground, pipe, tops, bases, s, |acc|)
    ensures var acc' := acc + [CrossingValue(ground, pipe, tops, bases, s, |acc|)];
      |acc0| < |acc'| && acc'[..|acc0|] == acc0
      && Collected(ground, pipe, tops, bases, acc', src + [s]) && InScanOrder(src + [s])
    ensures forall i :: |acc0| <= i < |acc| + 1 ==> (src + [s])[i] == s
    ensures forall i :: 0 <= i < |src| + 1 ==> NotAfter((src + [s])[i], s)
  {
    CollectAppend(ground, pipe, tops, bases, acc, src, s);
    var acc' := acc + [CrossingValue(ground, pipe, tops, bases, s, |acc|)];
    assert acc'[..|acc0|] == acc[..|acc0|];
  }

  /** The cursor invariant: the cursor is the level index of the next break to be added. */
  predicate CursorAt(tops: seq<int>, k: nat, acc: seq<BreakKm>)
    requires |tops| >= 1
  {
    k == LevelIndex(|acc|, |tops|)
  }

  /**
    The breaks after the pipe loop of segment l, from the breaks acc collected before it: while the
    segment end lies below the base at the cursor, the base crossing is added and the cursor moves
    on; the loop ends early once the cursor would pass the last band.
  */
  function PipeRun(pipe: seq<real>, tops: seq<int>, bases: seq<int>, l: nat, acc: seq<BreakKm>): seq<BreakKm>
    requires StrictlyIncreasingKm(pipe) && |tops| == |bases| >= 1
    requires 2 <= l && l % 2 == 0 && l + 2 <= |pipe|
    decreases |tops| - |acc|
  {
    var k := LevelIndex(|acc|, |tops|);
    if pipe[l + 1] < bases[k] as real then
      assert pipe[l - 2] < pipe[l];
      var next := acc + [PipeCrossing(pipe[l - 2], pipe[l - 1], pipe[l], pipe[l + 1], bases[k] as real)];
      if |next| >= |tops| then next else PipeRun(pipe, tops, bases, l, next)
    else acc
  }

  /** The same for ground vertex m rising above the top at the cursor. */
  function GroundRun(ground: seq<real>, tops: seq<int>, m: nat, acc: seq<BreakKm>): seq<BreakKm>
    requires StrictlyIncreasingKm(ground) && |tops| >= 1
    requires 2 <= m && m % 2 == 0 && m + 2 <= |ground|
    decreases |tops| - |acc|
  {
    var k := LevelIndex(|acc|, |tops|);
    if ground[m + 1] > tops[k] as real then
      assert ground[m - 2] < ground[m];
      var next := acc + [GroundCrossing(ground[m - 2], ground[m - 1], ground[m], ground[m + 1], tops[k] as real)];
      if |next| >= |tops| then next else GroundRun(ground, tops, m, next)
    else acc
  }

  /**
    The breaks after the ground loop of pipe segment l, from vertex m on: every vertex within the
    segment's distances that lies above the top at the cursor adds its crossings.
  */
  function GroundScan(ground: seq<real>, pipe: seq<real>, tops: seq<int>, l: nat, m: nat, acc: seq<BreakKm>): seq<BreakKm>
    requires StrictlyIncreasingKm(ground) && |tops| >= 1
    requires 2 <= l && l + 2 <= |pipe| && 2 <= m && m % 2 == 0
    decreases |ground| - m
  {
    if m <= |ground| - 2 then
      var k := LevelIndex(|acc|, |tops|);
      var next :=
        if ground[m] > pipe[l - 2] && ground[m] <= pipe[l] && ground[m + 1] > tops[k] as real
        then GroundRun(ground, tops, m, acc) else acc;
      GroundScan(ground, pipe, tops, l, m + 2, next)
    else acc
  }

  /** The breaks after pipe segment l: its pipe loop when its end lies below the base at the cursor, else its ground loop. */
  function SegmentCrossings(ground: seq<real>, pipe: seq<real>, tops: seq<int>, bases: seq<int>, l: nat, acc: seq<BreakKm>): seq<BreakKm>
    requires StrictlyIncreasingKm(ground) && StrictlyIncreasingKm(pipe) && |tops| == |bases| >= 1
    requires 2 <= l && l % 2 == 0 && l + 2 <= |pipe|
  {
    var k := LevelIndex(|acc|, |tops|);
    if pipe[l + 1] < bases[k] as real then PipeRun(pipe, tops, bases, l, acc)
    else GroundScan(ground, pipe, tops, l, 2, acc)
  }

  /** The breaks after the pipe segments from l on. */
  function CrossingsFrom(ground: seq<real>, pipe: seq<real>, tops: seq<int>, bases: seq<int>, l: nat, acc: seq<BreakKm>): seq<BreakKm>
    requires StrictlyIncreasingKm(ground) && StrictlyIncreasingKm(pipe) && |tops| == |bases| >= 1
    requires 2 <= l && l % 2 == 0
    decreases |pipe| - l
  {
    if l <= |pipe| - 2 then
      CrossingsFrom(ground, pipe, tops, bases, l + 2, SegmentCrossings(ground, pipe, tops, bases, l, acc))
    else acc
  }

  /** Every break the collection phase of BuildBreakKms adds, in the order it adds them. */
  function Crossings(ground: seq<real>, pipe: seq<real>, tops: seq<int>, bases: seq<int>): seq<BreakKm>
    requires StrictlyIncreasingKm(ground) && StrictlyIncreasingKm(pipe) && |tops| == |bases| >= 1
  {
    CrossingsFrom(ground, pipe, tops, bases, 2, [])
  }

  /**
    The inner loop of BuildBreakKms for a pipe segment ending below the cursor's base: one break per
    base level the segment end lies below, advancing the cursor, until the segment end is no longer
    below the cursor's base or the cursor has reached the last band.
  */
  method CollectPipeCrossings(ground: seq<real>, pipe: seq<real>, tops: seq<int>, bases: seq<int>, l: nat,
                              k0: nat, acc0: seq<BreakKm>, ghost src0: seq<Source>)
    returns (k: nat, acc: seq<BreakKm>, ghost src: seq<Source>)
    requires StrictlyIncreasingKm(ground) && StrictlyIncreasingKm(pipe)
    requires |tops| == |bases| >= 1
    requires 2 <= l && l % 2 == 0 && l + 2 <= |pipe|
    requires CursorAt(tops, k0, acc0) && pipe[l + 1] < bases[k0] as real
    requires Collected(ground, pipe, tops, bases, acc0, src0) && InScanOrder(src0)
    requires forall i :: 0 <= i < |src0| ==> NotAfter(src0[i], PipeSegment(l))
    ensures CursorAt(tops, k, acc) && |acc0| < |acc| && acc[..|acc0|] == acc0
    ensures Collected(ground, pipe, tops, bases, acc, src) && InScanOrder(src)
    ensures forall i :: |acc0| <= i < |acc| ==> src[i] == PipeSegment(l)
    ensures forall i :: 0 <= i < |src| ==> NotAfter(src[i], PipeSegment(l))
    ensures pipe[l + 1] >= bases[k] as real || |acc| >= |tops|
    ensures acc == PipeRun(pipe, tops, bases, l, acc0)
  {
    var n := |tops|;
    var x1, y1, x2, y2 := pipe[l - 2], pipe[l - 1], pipe[l], pipe[l + 1];
    assert x1 < x2;
    k, acc, src := k0, acc0, src0;
    while y2 < bases[k] as real
      invariant CursorAt(tops, k, acc) && |acc0| <= |acc| && acc[..|acc0|] == acc0
      invariant Collected(ground, pipe, tops, bases, acc, src) && InScanOrder(src)
      invariant forall i :: |acc0| <= i < |acc| ==> src[i] == PipeSegment(l)
      invariant forall i :: 0 <= i < |src| ==> NotAfter(src[i], PipeSegment(l))
      invariant |acc0| < |acc| || k == k0
      invariant |acc0| < |acc| ==> |acc| < n
      invariant PipeRun(pipe, tops, bases, l, acc) == PipeRun(pipe, tops, bases, l, acc0)
      decreases n - k
    {
      CollectStep(ground, pipe, tops, bases, acc0, acc, src, PipeSegment(l));
      assert CrossingValue(ground, pipe, tops, bases, PipeSegment(l), |acc|) == PipeCrossing(x1, y1, x2, y2, bases[k] as real);
      acc := acc + [PipeCrossing(x1, y1, x2, y2, bases[k] as real)];
      src := src + [PipeSegment(l)];
      k := k + 1;
      if k >= n {
        k := n - 1;
        break;
      }
    }
  }

  /**
    The inner loop of BuildBreakKms for a ground vertex above the cursor's top: one break per top
    level the vertex lies above, until it no longer does or the cursor has reached the last band.
  */
  method CollectGroundCrossings(ground: seq<real>, pipe: seq<real>, tops: seq<int>, bases: seq<int>, l: nat, m: nat,
                                k0: nat, acc0: seq<BreakKm>, ghost src0: seq<Source>)
    returns (k: nat, acc: seq<BreakKm>, ghost src: seq<Source>)
    requires StrictlyIncreasingKm(ground) && StrictlyIncreasingKm(pipe)
    requires |tops| == |bases| >= 1
    requires 2 <= l && l % 2 == 0 && l + 2 <= |pipe|
    requires 2 <= m && m % 2 == 0 && m + 2 <= |ground| && pipe[l - 2] < ground[m] <= pipe[l]
    requires CursorAt(tops, k0, acc0) && ground[m + 1] > tops[k0] as real
    requires Collected(ground, pipe, tops, bases, acc0, src0) && InScanOrder(src0)
    requires forall i :: 0 <= i < |src0| ==> NotAfter(src0[i], GroundVertex(l, m))
    ensures CursorAt(tops, k, acc) && |acc0| < |acc| && acc[..|acc0|] == acc0
    ensures Collected(ground, pipe, tops, bases, acc, src) && InScanOrder(src)
    ensures forall i :: |acc0| <= i < |acc| ==> src[i] == GroundVertex(l, m)
    ensures forall i :: 0 <= i < |src| ==> NotAfter(src[i], GroundVertex(l, m))
    ensures ground[m + 1] <= tops[k] as real || |acc| >= |tops|
    ensures acc == GroundRun(ground, tops, m, acc0)
  {
    var n := |tops|;
    var gy := ground[m + 1];
    assert ground[m - 2] < ground[m];
    k, acc, src := k0, acc0, src0;
    while gy > tops[k] as real
      invariant CursorAt(tops, k, acc) && |acc0| <= |acc| && acc[..|acc0|] == acc0
      invariant Collected(ground, pipe, tops, bases, acc, src) && InScanOrder(src)
      invariant forall i :: |acc0| <= i < |acc| ==> src[i] == GroundVertex(l, m)
      invariant forall i :: 0 <= i < |src| ==> NotAfter(src[i], GroundVertex(l, m))
      invariant |acc0| < |acc| || k == k0
      invariant |acc0| < |acc| ==> |acc| < n
      invariant GroundRun(ground, tops, m, acc) == GroundRun(ground, tops, m, acc0)
      decreases n - k
    {
      CollectStep(ground, pipe, tops, bases, acc0, acc, src, GroundVertex(l, m));
      assert CrossingValue(ground, pipe, tops, bases, GroundVertex(l, m), |acc|)
        == GroundCrossing(ground[m - 2], ground[m - 1], ground[m], gy, tops[k] as real);
      acc := acc + [GroundCrossing(ground[m - 2], ground[m - 1], ground[m], gy, tops[k] as real)];
      src := src + [GroundVertex(l, m)];
      k := k + 1;
      if k >= n {
        k := n - 1;
        break;
      }
    }
  }

  /**
    A pipe falling from 95 m to 60 m over 10 m of flat ground at 100 m, with bands 100-87 and 87-74:
    the pipe segment crosses both bases, at 16/7 m and at 6 m, and the cursor then sits on the last band.
  */
  lemma CrossingsExample()
    ensures StrictlyIncreasingKm([0.0, 100.0, 10.0, 100.0]) && StrictlyIncreasingKm([0.0, 95.0, 10.0, 60.0])
    ensures Crossings([0.0, 100.0, 10.0, 100.0], [0.0, 95.0, 10.0, 60.0], [100, 87], [87, 74])
            == [Finite(16.0 / 7.0), Finite(6.0)]
  {
    var ground, pipe := [0.0, 100.0, 10.0, 100.0], [0.0, 95.0, 10.0, 60.0];
    assert StrictlyIncreasingKm(pipe);
    var first := PipeCrossing(0.0, 95.0, 10.0, 60.0, 87.0);
    assert first == Finite(16.0 / 7.0);
    assert PipeRun(pipe, [100, 87], [87, 74], 2, [first]) == [first, Finite(6.0)];
  }

  /**
    BuildBreakKms: collects the crossings with a band cursor that never passes the last band, pads
    the list with the route end or cuts it to the band count, and forces the last break to the route
    end. The ghost outputs name each collected break's source.
  */
  method BuildBreakKms(ground: seq<real>, pipe: seq<real>, tops: seq<int>, bases: seq<int>, endKm: real)
    returns (breaks: seq<BreakKm>, ghost crossings: seq<BreakKm>, ghost sources: seq<Source>)
    requires IsPairs(ground) && IsPairs(pipe)
    requires StrictlyIncreasingKm(ground) && StrictlyIncreasingKm(pipe)
    requires |tops| == |bases| >= 1
    ensures crossings == Crossings(ground, pipe, tops, bases)
    ensures Collected(ground, pipe, tops, bases, crossings, sources) && InScanOrder(sources)
    ensures |breaks| == |tops| && breaks[|tops| - 1] == Finite(endKm)
    ensures forall i :: 0 <= i < |tops| - 1 ==>
              breaks[i] == if i < |crossings| then crossings[i] else Finite(endKm)
  {
    var n := |tops|;
    var k: nat := 0;
    var acc: seq<BreakKm> := [];
    ghost var src: seq<Source> := [];
    var l := 2;
    while l <= |pipe| - 2
      invariant 2 <= l <= |pipe| && l % 2 == 0
      invariant CursorAt(tops, k, acc)
      invariant Collected(ground, pipe, tops, bases, acc, src) && InScanOrder(src)
      invariant forall i :: 0 <= i < |src| ==> src[i].l < l
      invariant CrossingsFrom(ground, pipe, tops, bases, l, acc) == Crossings(ground, pipe, tops, bases)
    {
      var x1, x2, y2 := pipe[l - 2], pipe[l], pipe[l + 1];
      ghost var before := acc;
      if y2 < bases[k] as real {
        k, acc, src := CollectPipeCrossings(ground, pipe, tops, bases, l, k, acc, src);
      } else {
        k, acc, src := ScanGround(ground, pipe, tops, bases, l, k, acc, src);
      }
      assert acc == SegmentCrossings(ground, pipe, tops, bases, l, before);
      EvenStep(l);
      l := l + 2;
    }
    crossings, sources := acc, src;
    breaks := PadBreaks(acc, n, endKm);
  }

  /**
    The inner loop of BuildBreakKms over the ground vertices: every vertex within pipe segment l
    that lies above the cursor's top level adds its breaks.
  */
  method ScanGround(ground: seq<real>, pipe: seq<real>, tops: seq<int>, bases: seq<int>, l: nat,
                    k0: nat, acc0: seq<BreakKm>, ghost src0: seq<Source>)
    returns (k: nat, acc: seq<BreakKm>, ghost src: seq<Source>)
    requires IsPairs(ground) && StrictlyIncreasingKm(ground) && StrictlyIncreasingKm(pipe)
    requires |tops| == |bases| >= 1
    requires 2 <= l && l % 2 == 0 && l + 2 <= |pipe|
    requires CursorAt(tops, k0, acc0)
    requires Collected(ground, pipe, tops, bases, acc0, src0) && InScanOrder(src0)
    requires forall i :: 0 <= i < |src0| ==> src0[i].l < l
    ensures CursorAt(tops, k, acc)
    ensures Collected(ground, pipe, tops, bases, acc, src) && InScanOrder(src)
    ensures forall i :: 0 <= i < |src| ==> src[i].l <= l
    ensures acc == GroundScan(ground, pipe, tops, l, 2, acc0)
  {
    k, acc, src := k0, acc0, src0;
    var m := 2;
    while m <= |ground| - 2
      invariant 2 <= m <= |ground| && m % 2 == 0
      invariant CursorAt(tops, k, acc)
      invariant Collected(ground, pipe, tops, bases, acc, src) && InScanOrder(src)
      invariant forall i :: 0 <= i < |src| ==> NotAfter(src[i], GroundVertex(l, m))
      invariant GroundScan(ground, pipe, tops, l, m, acc) == GroundScan(ground, pipe, tops, l, 2, acc0)
    {
      k, acc, src := VisitVertex(ground, pipe, tops, bases, l, m, k, acc, src);
      EvenStep(m);
      m := m + 2;
    }
  }

  /** One pass of the ground loop of ScanGround: vertex m adds its breaks when it lies within the segment and above the cursor's top. */
  method VisitVertex(ground: seq<real>, pipe: seq<real>, tops: seq<int>, bases: seq<int>, l: nat, m: nat,
                     k0: nat, acc0: seq<BreakKm>, ghost src0: seq<Source>)
    returns (k: nat, acc: seq<BreakKm>, ghost src: seq<Source>)
    requires StrictlyIncreasingKm(ground) && StrictlyIncreasingKm(pipe)
    requires |tops| == |bases| >= 1
    requires 2 <= l && l % 2 == 0 && l + 2 <= |pipe|
    requires 2 <= m && m % 2 == 0 && m + 2 <= |ground|
    requires CursorAt(tops, k0, acc0)
    requires Collected(ground, pipe, tops, bases, acc0, src0) && InScanOrder(src0)
    requires forall i :: 0 <= i < |src0| ==> NotAfter(src0[i], GroundVertex(l, m))
    ensures CursorAt(tops, k, acc)
    ensures Collected(ground, pipe, tops, bases, acc, src) && InScanOrder(src)
    ensures forall i :: 0 <= i < |src| ==> NotAfter(src[i], GroundVertex(l, m + 2))
    ensures GroundScan(ground, pipe, tops, l, m, acc0) == GroundScan(ground, pipe, tops, l, m + 2, acc)
  {
    var x1, x2 := pipe[l - 2], pipe[l];
    var gx, gy := ground[m], ground[m + 1];
    GroundScanStep(ground, pipe, tops, l, m, acc0);
    if gx > x1 && gx <= x2 && gy > tops[k0] as real {
      k, acc, src := CollectGroundCrossings(ground, pipe, tops, bases, l, m, k0, acc0, src0);
    } else {
      k, acc, src := k0, acc0, src0;
    }
  }

  /** One unfolding of GroundScan at a vertex inside the ground line. */
  lemma GroundScanStep(ground: seq<real>, pipe: seq<real>, tops: seq<int>, l: nat, m: nat, acc: seq<BreakKm>)
    requires StrictlyIncreasingKm(ground) && |tops| >= 1
    requires 2 <= l && l + 2 <= |pipe| && 2 <= m && m % 2 == 0 && m + 2 <= |ground|
    ensures (m + 2) % 2 == 0
    ensures GroundScan(ground, pipe, tops, l, m, acc) == GroundScan(ground, pipe, tops, l, m + 2,
              if ground[m] > pipe[l - 2] && ground[m] <= pipe[l] && ground[m + 1] > tops[LevelIndex(|acc|, |tops|)] as real
              then GroundRun(ground, tops, m, acc) else acc)
  {
    EvenStep(m);
  }

  /**
    The tail of BuildBreakKms: the collected breaks are padded with the end distance up to one per
    band or cut to one per band, and the last band always ends at the end distance.
  */
  method PadBreaks(acc: seq<BreakKm>, n: nat, endKm: real) returns (breaks: seq<BreakKm>)
    requires n >= 1
    ensures |breaks| == n && breaks[n - 1] == Finite(endKm)
    ensures forall i :: 0 <= i < n - 1 ==> breaks[i] == if i < |acc| then acc[i] else Finite(endKm)
  {
    breaks := acc;
    while |breaks| < n
      invariant |acc| <= |breaks| || breaks == acc
      invariant forall i :: 0 <= i < |breaks| ==> breaks[i] == if i < |acc| then acc[i] else Finite(endKm)
      decreases n - |breaks|
    {
      breaks := breaks + [Finite(endKm)];
    }
    if |breaks| > n {
      breaks := breaks[..n];
    }
    breaks := breaks[n - 1 := Finite(endKm)];
  }

  /** The two shape errors of BuildBands, ground first. */
  function CheckShapes(ground: seq<real>, pipe: seq<real>): (r: Outcome<Error>)
    ensures r.Pass? <==> IsPairs(ground) && IsPairs(pipe)
    ensures !IsPairs(ground) ==> r == Fail(InvalidPairs("groundXY"))
    ensures IsPairs(ground) && !IsPairs(pipe) ==> r == Fail(InvalidPairs("pipeXY"))
  {
    if !IsPairs(ground) then Fail(InvalidPairs("groundXY"))
    else if !IsPairs(pipe) then Fail(InvalidPairs("pipeXY"))
    else Pass
  }

  /** The body of the scan loop of BuildBands for one sample: widen the candidates, emit a band when they exceed 13 m. */
  method ScanSample(top0: int, base0: int, tops0: seq<int>, bases0: seq<int>, groundElev: real, pipeElev: real)
    returns (top: int, base: int, tops: seq<int>, bases: seq<int>)
    ensures ScanState(top, base, tops, bases) == ScanStep(ScanState(top0, base0, tops0, bases0), groundElev, pipeElev)
  {
    top, base, tops, bases := top0, base0, tops0, bases0;
    var raised := false;
    var lowered := false;
    if groundElev > top as real {
      top := Ceil(groundElev);
      raised := true;
    }
    if pipeElev < base as real {
      base := Floor(pipeElev);
      lowered := true;
    }
    if top - base > BandHeight {
      if lowered {
        tops := tops + [top];
        bases := bases + [top - BandHeight];
        top := Ceil(groundElev);
        base := Floor(pipeElev);
      }
      if raised {
        tops := tops + [base + BandHeight];
        bases := bases + [base];
        top := Ceil(groundElev);
        base := Floor(pipeElev);
      }
    }
  }

  /**
    BuildBands: the shape errors; the abort at the first sample with the pipe above the ground,
    carrying the line name and that sample's distance; otherwise the scan's bands (all 13 m high, at
    least one), as many breaks as bands, each break but the last a crossing at that band's level or
    the route end, and the route end as the last break.
  */
  method BuildBands(ground: seq<real>, pipe: seq<real>, lineName: string) returns (r: Result<ProfileBandSet, Error>)
    requires StrictlyIncreasingKm(ground) && StrictlyIncreasingKm(pipe)
    ensures CheckShapes(ground, pipe).Fail? ==> r == Failure(CheckShapes(ground, pipe).error)
    ensures IsPairs(ground) && IsPairs(pipe) ==> (r.Success? <==> PipeNeverAboveGround(ground, pipe))
    ensures IsPairs(ground) && IsPairs(pipe) && r.Failure? ==>
              exists k: nat :: FirstPipeAbove(ground, pipe, k) && r.error == PipeAboveGround(lineName, ScanKm(k))
    ensures r.Success? ==> IsPairs(ground) && IsPairs(pipe)
    ensures r.Success? ==> r.value.topLevels == ScanTops(ground, pipe) && r.value.baseLevels == ScanBases(ground, pipe)
    ensures r.Success? ==> r.value.BandCount() >= 1 && HeightsAre13(r.value.topLevels, r.value.baseLevels)
    ensures r.Success? ==> |r.value.breakKms| == r.value.BandCount()
    ensures r.Success? ==> r.value.breakKms[r.value.BandCount() - 1] == Finite(EndKm(ground, pipe))
    ensures r.Success? ==> forall i :: 0 <= i < r.value.BandCount() - 1 ==>
              r.value.breakKms[i] == Finite(EndKm(ground, pipe))
              || IsCrossing(ground, pipe, r.value.topLevels, r.value.baseLevels, i, r.value.breakKms[i])
    ensures r.Success? ==> forall i :: 0 <= i < r.value.BandCount() - 1 ==>
              r.value.breakKms[i] ==
                var c := Crossings(ground, pipe, r.value.topLevels, r.value.baseLevels);
                if i < |c| then c[i] else Finite(EndKm(ground, pipe))
  {
    var shapes := CheckShapes(ground, pipe);
    if shapes.Fail? {
      return Failure(shapes.error);
    }
    var endKm := Max(ground[|ground| - 2], pipe[|pipe| - 2]);
    var above, top, tops, bases := ScanSamples(ground, pipe, endKm);
    if above.Some? {
      return Failure(PipeAboveGround(lineName, ScanKm(above.value)));
    }
    tops := tops + [top];
    bases := bases + [top - BandHeight];
    r := CloseBands(ground, pipe, tops, bases, endKm);
  }

  /**
    The sampling loop of BuildBands: the samples are visited in order; at the first sample where
    the pipe lies above the ground the scan stops and reports it; otherwise the scan runs to the end
    and yields the top candidate and the bands emitted.
  */
  method ScanSamples(ground: seq<real>, pipe: seq<real>, endKm: real)
    returns (above: Option<nat>, top: int, tops: seq<int>, bases: seq<int>)
    requires IsPairs(ground) && IsPairs(pipe) && endKm == EndKm(ground, pipe)
    ensures above.Some? <==> !PipeNeverAboveGround(ground, pipe)
    ensures above.Some? ==> FirstPipeAbove(ground, pipe, above.value)
    ensures above.None? ==> tops + [top] == ScanTops(ground, pipe) && bases + [top - BandHeight] == ScanBases(ground, pipe)
  {
    top := Ceil(ground[1]);
    var base := Floor(pipe[1]);
    tops, bases := [], [];
    ghost var samples := SampleCount(endKm);

    var k: nat := 1;
    while ScanKm(k) <= endKm
      invariant 1 <= k <= samples + 1
      invariant ScanState(top, base, tops, bases) == ScanUpTo(ground, pipe, k - 1)
      invariant forall j: nat :: 1 <= j < k ==> !PipeAboveAt(ground, pipe, j)
      decreases samples + 1 - k
    {
      var km := ScanKm(k);
      var groundElev := InterpolateYAtX(ground, km);
      var pipeElev := InterpolateYAtX(pipe, km);
      if pipeElev > groundElev {
        assert FirstPipeAbove(ground, pipe, k);
        return Some(k), top, tops, bases;
      }
      top, base, tops, bases := ScanSample(top, base, tops, bases, groundElev, pipeElev);
      k := k + 1;
    }
    assert k - 1 == samples;
    above := None;
  }

  /** The end of BuildBands: the closing band is already appended; the breaks are collected and the band set built. */
  method CloseBands(ground: seq<real>, pipe: seq<real>, tops: seq<int>, bases: seq<int>, endKm: real)
    returns (r: Result<ProfileBandSet, Error>)
    requires IsPairs(ground) && IsPairs(pipe) && StrictlyIncreasingKm(ground) && StrictlyIncreasingKm(pipe)
    requires tops == ScanTops(ground, pipe) && bases == ScanBases(ground, pipe) && endKm == EndKm(ground, pipe)
    ensures r.Success? && r.value.topLevels == tops && r.value.baseLevels == bases
    ensures r.value.BandCount() >= 1 && HeightsAre13(tops, bases)
    ensures |r.value.breakKms| == |tops| && r.value.breakKms[|tops| - 1] == Finite(endKm)
    ensures forall i :: 0 <= i < |tops| - 1 ==>
              r.value.breakKms[i] == Finite(endKm) || IsCrossing(ground, pipe, tops, bases, i, r.value.breakKms[i])
    ensures forall i :: 0 <= i < |tops| - 1 ==>
              r.value.breakKms[i] ==
                var c := Crossings(ground, pipe, tops, bases);
                if i < |c| then c[i] else Finite(endKm)
  {
    BandsAre13High(ground, pipe);
    var breaks;
    ghost var crossings, sources;
    breaks, crossings, sources := BuildBreakKms(ground, pipe, tops, bases, endKm);
    forall i | 0 <= i < |tops| - 1 && i < |crossings|
      ensures IsCrossing(ground, pipe, tops, bases, i, breaks[i])
    {
      assert SourceOk(ground, pipe, tops, bases, sources[i], i);
    }
    r := NewProfileBandSet(tops, bases, breaks);
  }

  lemma RatioInUnit(a: real, e: real)
    requires 0.0 <= a < e
    ensures 0.0 <= a / e < 1.0
  {
  }

  lemma ScaleInUnit(t: real, d: real)
    requires 0.0 <= t < 1.0 && d > 0.0
    ensures 0.0 <= t * d < d
  {
  }

  /** A finite pipe crossing lies on the segment's line at the base level, and inside the segment
      when the segment starts at or above the level. */
  lemma PipeCrossingOnLine(x1: real, y1: real, x2: real, y2: real, level: real)
    requires x1 < x2 && y2 < level
    ensures PipeCrossing(x1, y1, x2, y2, level).NegInfinity? <==> y1 == y2
    ensures y1 != y2 ==> Lerp(x1, y1, x2, y2, PipeCrossing(x1, y1, x2, y2, level).km) == level
    ensures y1 != y2 && level <= y1 ==> x1 <= PipeCrossing(x1, y1, x2, y2, level).km < x2
  {
    if y1 != y2 {
      var d, e := x2 - x1, y1 - y2;
      var slope := e / d;
      assert slope * d == e;
      var t := (y1 - level) / e;
      assert (1.0 / slope) * (y1 - level) == t * d by {
        assert 1.0 / slope == d / e;
      }
      LerpAtFraction(x1, y1, x2, y2, t);
      assert t * (y2 - y1) == level - y1 by {
        assert t * e == y1 - level;
      }
      if level <= y1 {
        RatioInUnit(y1 - level, e);
        ScaleInUnit(t, d);
      }
    }
  }

  /** The line through two points, at a fraction t of the way from the first to the second. */
  lemma LerpAtFraction(x1: real, y1: real, x2: real, y2: real, t: real)
    requires x1 < x2
    ensures Lerp(x1, y1, x2, y2, x1 + t * (x2 - x1)) == y1 + t * (y2 - y1)
  {
    var d := x2 - x1;
    assert (t * d) * ((y2 - y1) / d) == t * (y2 - y1);
  }

  /** The same for a ground crossing at a top level. */
  lemma GroundCrossingOnLine(x0: real, y0: real, x1: real, y1: real, level: real)
    requires x0 < x1 && y1 > level
    ensures GroundCrossing(x0, y0, x1, y1, level).NegInfinity? <==> y0 == y1
    ensures y0 != y1 ==> Lerp(x0, y0, x1, y1, GroundCrossing(x0, y0, x1, y1, level).km) == level
    ensures y0 != y1 && y0 <= level ==> x0 <= GroundCrossing(x0, y0, x1, y1, level).km < x1
  {
    if y0 != y1 {
      var d, e := x1 - x0, y1 - y0;
      var slope := e / d;
      assert slope * d == e;
      var t := (level - y0) / e;
      assert (1.0 / slope) * (level - y0) == t * d by {
        assert 1.0 / slope == d / e;
      }
      LerpAtFraction(x0, y0, x1, y1, t);
      assert t * e == level - y0;
      if y0 <= level {
        RatioInUnit(level - y0, e);
        ScaleInUnit(t, d);
      }
    }
  }
}
