/**
  Arithmetic on (distance, elevation) polylines shared by the band, clip and hydraulic services.

  A polyline travels as a flat array [x0, y0, x1, y1, ...] of distances (km) and elevations.
  The services linearly interpolate it with one and the same lookup (InterpolateYAtX), which
  exists twice in the code base and is defined once here.
*/
module Geometry {

  /** A (distance, elevation) vertex. */
  datatype Pt = Pt(x: real, y: real)

  /** The shape every service demands of a pair array: even length, at least two points. */
  predicate IsPairs(s: seq<real>) {
    |s| >= 4 && |s| % 2 == 0
  }

  /** Distances (the even entries) strictly increase along the array. */
  predicate StrictlyIncreasingKm(s: seq<real>) {
    forall i, j :: 0 <= i < j < |s| && i % 2 == 0 && j % 2 == 0 ==> s[i] < s[j]
  }

  /** The product of two positive numbers is positive. */
  lemma PositiveProduct(a: real, b: real)
    requires a > 0.0 && b > 0.0
    ensures a * b > 0.0
  {
  }

  /** Scaling by a positive factor keeps the order. */
  lemma ScaledOrder(a: real, b: real, p: real)
    requires a < b && p > 0.0
    ensures a * p < b * p
  {
    PositiveProduct(b - a, p);
  }

  /** A pair array is its front followed by its last pair. */
  lemma SplitLastPair(s: seq<real>)
    requires |s| >= 2
    ensures s == s[..|s| - 2] + [s[|s| - 2], s[|s| - 1]]
  {
  }

  /** A pair array of length 2n holds n pairs. */
  lemma HalfOfDouble(len: int, n: int)
    requires len == 2 * n
    ensures len / 2 == n
  {
  }

  /** Appending or removing one pair keeps a pair array whole. */
  lemma EvenStep(n: int)
    requires n % 2 == 0
    ensures (n + 2) % 2 == 0 && (n - 2) % 2 == 0 && (n + 2) / 2 == n / 2 + 1
  {
  }

  function Max(a: real, b: real): (m: real)
    ensures m >= a && m >= b && (m == a || m == b)
  {
    if a >= b then a else b
  }

  /** Math.Min on band indexes. */
  function MinInt(a: int, b: int): int {
    if a <= b then a else b
  }

  /** Points back to a flat [x0, y0, x1, y1, ...] array. */
  function Flatten(pts: seq<Pt>): (r: seq<real>)
    ensures |r| == 2 * |pts|
  {
    if pts == [] then [] else Flatten(pts[..|pts| - 1]) + [pts[|pts| - 1].x, pts[|pts| - 1].y]
  }

  /** Math.Floor followed by a cast to int. */
  function Floor(x: real): (f: int)
    ensures f as real <= x < f as real + 1.0
  {
    x.Floor
  }

  /** Math.Ceiling followed by a cast to int. */
  function Ceil(x: real): (c: int)
    ensures x <= c as real < x + 1.0
  {
    -((-x).Floor)
  }

  /** The point at distance x on the straight line through (x1, y1) and (x2, y2). */
  function Lerp(x1: real, y1: real, x2: real, y2: real, x: real): real
    requires x1 != x2
  {
    y1 + (x - x1) * ((y2 - y1) / (x2 - x1))
  }

  /** A value on a segment lies between the segment's end elevations. */
  lemma LerpBetween(x1: real, y1: real, x2: real, y2: real, x: real)
    requires x1 < x2 && x1 <= x <= x2
    ensures y1 <= y2 ==> y1 <= Lerp(x1, y1, x2, y2, x) <= y2
    ensures y2 <= y1 ==> y2 <= Lerp(x1, y1, x2, y2, x) <= y1
    ensures Lerp(x1, y1, x2, y2, x1) == y1 && Lerp(x1, y1, x2, y2, x2) == y2
  {
    var d, a := x2 - x1, x - x1;
    var slope := (y2 - y1) / d;
    assert slope * d == y2 - y1;
    assert 0.0 <= a <= d;
    if y1 <= y2 {
      assert 0.0 <= slope;
      assert 0.0 <= a * slope <= d * slope;
    } else {
      assert slope < 0.0;
      assert d * slope <= a * slope <= 0.0;
    }
  }

  /** Segment i (an even index i >= 2) runs from vertex (i-2, i-1) to (i, i+1) and strictly encloses x. */
  predicate Encloses(xy: seq<real>, i: nat, x: real) {
    2 <= i && i % 2 == 0 && i + 2 <= |xy| && xy[i - 2] < x < xy[i]
  }

  /**
    ProfileBandService.InterpolateYAtX (and its copy in HydraulicProfileBuilder): the first
    segment that strictly encloses x gives a linear interpolation; otherwise the first elevation
    when x is at or before the first distance, else the LAST ELEVATION. An x that hits an interior
    vertex exactly is enclosed by no segment and so falls through to the last elevation.
  */
  function InterpolateYAtX(xy: seq<real>, x: real): real
    requires |xy| >= 2
  {
    InterpolateFrom(xy, x, 2)
  }

  /** The scan of InterpolateYAtX from segment i on. */
  function InterpolateFrom(xy: seq<real>, x: real, i: nat): real
    requires |xy| >= 2 && 2 <= i && i % 2 == 0
    decreases |xy| - i
  {
    if i + 2 > |xy| then
      (if x <= xy[0] then xy[1] else xy[|xy| - 1])
    else if xy[i - 2] < x && xy[i] > x then
      Lerp(xy[i - 2], xy[i - 1], xy[i], xy[i + 1], x)
    else
      InterpolateFrom(xy, x, i + 2)
  }

  lemma {:induction false} InterpolateFromFirstEnclosing(xy: seq<real>, x: real, i: nat, j: nat)
    requires |xy| >= 2 && 2 <= i <= j && i % 2 == 0
    requires Encloses(xy, j, x)
    requires forall e :: i <= e < j ==> !Encloses(xy, e, x)
    ensures InterpolateFrom(xy, x, i) == Lerp(xy[j - 2], xy[j - 1], xy[j], xy[j + 1], x)
    decreases j - i
  {
    if i < j {
      assert !Encloses(xy, i, x);
      InterpolateFromFirstEnclosing(xy, x, i + 2, j);
    }
  }

  lemma {:induction false} InterpolateFromNoEnclosing(xy: seq<real>, x: real, i: nat)
    requires |xy| >= 2 && 2 <= i && i % 2 == 0
    requires forall e :: i <= e ==> !Encloses(xy, e, x)
    ensures InterpolateFrom(xy, x, i) == if x <= xy[0] then xy[1] else xy[|xy| - 1]
    decreases |xy| - i
  {
    if i + 2 <= |xy| {
      assert !Encloses(xy, i, x);
      InterpolateFromNoEnclosing(xy, x, i + 2);
    }
  }

  /** With strictly increasing distances, no segment after an enclosing one encloses x as well. */
  lemma LaterSegmentDoesNotEnclose(xy: seq<real>, x: real, i: nat, j: nat)
    requires StrictlyIncreasingKm(xy)
    requires Encloses(xy, i, x) && i < j
    ensures !Encloses(xy, j, x)
  {
    if j % 2 == 0 && j + 2 <= |xy| {
      assert xy[i] <= xy[j - 2];
    }
  }

  /** ... nor any segment before it. */
  lemma EarlierSegmentDoesNotEnclose(xy: seq<real>, x: real, i: nat, j: nat)
    requires StrictlyIncreasingKm(xy)
    requires Encloses(xy, j, x) && 2 <= i < j
    ensures !Encloses(xy, i, x)
  {
    if i % 2 == 0 {
      assert xy[i] <= xy[j - 2];
    }
  }

  /** The interpolation on the segment that strictly encloses x. */
  lemma InterpolateInsideSegment(xy: seq<real>, x: real, j: nat)
    requires StrictlyIncreasingKm(xy)
    requires Encloses(xy, j, x)
    ensures InterpolateYAtX(xy, x) == Lerp(xy[j - 2], xy[j - 1], xy[j], xy[j + 1], x)
  {
    forall e: nat | 2 <= e < j ensures !Encloses(xy, e, x) {
      EarlierSegmentDoesNotEnclose(xy, x, e, j);
    }
    InterpolateFromFirstEnclosing(xy, x, 2, j);
  }

  /** Whenever no segment strictly encloses x the lookup clamps: first elevation at or before the
      first distance, last elevation otherwise. */
  lemma InterpolateOutsideSegments(xy: seq<real>, x: real)
    requires |xy| >= 2
    requires forall e :: !Encloses(xy, e, x)
    ensures InterpolateYAtX(xy, x) == if x <= xy[0] then xy[1] else xy[|xy| - 1]
  {
    InterpolateFromNoEnclosing(xy, x, 2);
  }

  /** At or before the first distance of an increasing polyline the first elevation is returned. */
  lemma InterpolateBeforeStart(xy: seq<real>, x: real)
    requires |xy| >= 2 && StrictlyIncreasingKm(xy)
    requires x <= xy[0]
    ensures InterpolateYAtX(xy, x) == xy[1]
  {
    forall e: nat | 2 <= e && e % 2 == 0 && e + 2 <= |xy| ensures !Encloses(xy, e, x) {
      assert xy[0] <= xy[e - 2];
    }
    InterpolateOutsideSegments(xy, x);
  }

  /**
    The lookup's quirk: on an increasing polyline, a distance equal to any vertex after the first
    yields the last elevation, not that vertex's own elevation.
  */
  lemma InterpolateAtVertexFallsThrough(xy: seq<real>, v: nat)
    requires IsPairs(xy) && StrictlyIncreasingKm(xy)
    requires 1 <= v && 2 * v + 1 < |xy|
    ensures InterpolateYAtX(xy, xy[2 * v]) == xy[|xy| - 1]
  {
    var x := xy[2 * v];
    forall e: nat | 2 <= e && e % 2 == 0 && e + 2 <= |xy| ensures !Encloses(xy, e, x) {
      if e <= 2 * v {
        assert xy[e] <= xy[2 * v];
      } else {
        assert xy[2 * v] <= xy[e - 2];
      }
    }
    assert xy[0] < x;
    InterpolateOutsideSegments(xy, x);
  }
}
