/**
  Polyline clipping (ProfileClipService), used for the ground and pipe lines.

  SplitByBands inserts an interpolated vertex at each effective break distance, then walks the
  vertices with a buffer: whenever a vertex lies beyond the current break, the buffer is closed
  into a segment of the current band and a new buffer starts at (break distance, last elevation of
  the closed buffer). Buffers shorter than two points are dropped.
*/
module ClipService {
  import opened Wrappers
  import opened Geometry
  import opened Domain

  /** ReadPoints: a flat pair array as a list of points. */
  function ReadPoints(pairs: seq<real>): (pts: seq<Pt>)
    requires |pairs| % 2 == 0
    ensures 2 * |pts| == |pairs|
    ensures forall i :: 0 <= i < |pts| ==> pts[i] == Pt(pairs[2 * i], pairs[2 * i + 1])
  {
    if pairs == [] then []
    else ReadPoints(pairs[..|pairs| - 2]) + [Pt(pairs[|pairs| - 2], pairs[|pairs| - 1])]
  }

  /** Reading points and flattening them again gives back the pair array. */
  lemma {:induction false} ReadPointsRoundTrip(pairs: seq<real>)
    requires |pairs| % 2 == 0
    ensures Flatten(ReadPoints(pairs)) == pairs
  {
    if pairs != [] {
      var n := |pairs|;
      var front := pairs[..n - 2];
      EvenStep(n);
      var pts, last := ReadPoints(pairs), Pt(pairs[n - 2], pairs[n - 1]);
      var init := ReadPoints(front);
      assert pts == init + [last];
      assert pts[..|pts| - 1] == init;
      ReadPointsRoundTrip(front);
      assert Flatten(pts) == front + [last.x, last.y];
      SplitLastPair(pairs);
    }
  }

  /** Distances strictly increase along the point list. */
  predicate IncreasingX(pts: seq<Pt>) {
    forall i, j :: 0 <= i < j < |pts| ==> pts[i].x < pts[j].x
  }

  /** The span from point i-1 to point i strictly contains the distance b. */
  predicate Straddles(pts: seq<Pt>, i: nat, b: real) {
    1 <= i < |pts| && pts[i - 1].x < b < pts[i].x
  }

  /** The first straddling span at or after i, if any. */
  function FindStraddle(pts: seq<Pt>, b: real, i: nat): (r: Option<nat>)
    requires i >= 1
    ensures r.None? ==> forall k :: i <= k < |pts| ==> !Straddles(pts, k, b)
    ensures r.Some? ==> i <= r.value < |pts| && Straddles(pts, r.value, b)
    ensures r.Some? ==> forall k :: i <= k < r.value ==> !Straddles(pts, k, b)
    decreases |pts| - i
  {
    if i >= |pts| then None
    else if Straddles(pts, i, b) then Some(i)
    else FindStraddle(pts, b, i + 1)
  }

  /** The interpolated elevation at b, written as InsertBreakpoint writes it. */
  function ChordY(p1: Pt, p2: Pt, b: real): real
    requires p1.x < b < p2.x
  {
    p1.y + (b - p1.x) * (p2.y - p1.y) / (p2.x - p1.x)
  }

  /** The point list after InsertBreakpoint. */
  function InsertBreak(pts: seq<Pt>, b: real): (r: seq<Pt>)
    ensures |r| == |pts| || |r| == |pts| + 1
    ensures pts == [] ==> r == []
  {
    match FindStraddle(pts, b, 1)
    case None => pts
    case Some(i) => pts[..i] + [Pt(b, ChordY(pts[i - 1], pts[i], b))] + pts[i..]
  }

  /**
    InsertBreakpoint: scans the spans in order; at the first one that strictly contains the break
    it inserts one interpolated point there and stops; with no such span the list is unchanged.
  */
  method InsertBreakpoint(points: seq<Pt>, b: real) returns (r: seq<Pt>)
    ensures r == InsertBreak(points, b)
    ensures (forall k :: 1 <= k < |points| ==> !Straddles(points, k, b)) ==> r == points
    ensures forall i: nat :: Straddles(points, i, b) && (forall k :: 1 <= k < i ==> !Straddles(points, k, b)) ==>
              r == points[..i] + [Pt(b, ChordY(points[i - 1], points[i], b))] + points[i..]
  {
    var i := 1;
    while i < |points|
      invariant 1 <= i
      invariant FindStraddle(points, b, i) == FindStraddle(points, b, 1)
      decreases |points| - i
    {
      var p1, p2 := points[i - 1], points[i];
      if p1.x < b && b < p2.x {
        r := points[..i] + [Pt(b, ChordY(p1, p2, b))] + points[i..];
        assert Straddles(points, i, b) && FindStraddle(points, b, i) == Some(i);
        return;
      }
      i := i + 1;
    }
    r := points;
  }

  /** The inserted point lies on the straight line between its neighbours, between their elevations. */
  lemma ChordOnLine(p1: Pt, p2: Pt, b: real)
    requires p1.x < b < p2.x
    ensures ChordY(p1, p2, b) == Lerp(p1.x, p1.y, p2.x, p2.y, b)
    ensures p1.y <= p2.y ==> p1.y <= ChordY(p1, p2, b) <= p2.y
    ensures p2.y <= p1.y ==> p2.y <= ChordY(p1, p2, b) <= p1.y
  {
    var d := p2.x - p1.x;
    assert (b - p1.x) * (p2.y - p1.y) / d == (b - p1.x) * ((p2.y - p1.y) / d);
    LerpBetween(p1.x, p1.y, p2.x, p2.y, b);
  }

  /** Inserting a break keeps the distances strictly increasing, and keeps the first and last point. */
  lemma InsertBreakKeepsOrder(pts: seq<Pt>, b: real)
    requires IncreasingX(pts)
    ensures IncreasingX(InsertBreak(pts, b))
    ensures |pts| >= 1 ==> InsertBreak(pts, b)[0] == pts[0]
    ensures |pts| >= 1 ==> InsertBreak(pts, b)[|InsertBreak(pts, b)| - 1] == pts[|pts| - 1]
    ensures forall v :: v in pts ==> v in InsertBreak(pts, b)
  {
    match FindStraddle(pts, b, 1)
    case None =>
    case Some(i) =>
      InsertedKeepsOrder(pts, b, i);
      InsertedKeepsVertices(pts, b, i);
  }

  lemma InsertedKeepsOrder(pts: seq<Pt>, b: real, i: nat)
    requires IncreasingX(pts) && Straddles(pts, i, b)
    ensures IncreasingX(pts[..i] + [Pt(b, ChordY(pts[i - 1], pts[i], b))] + pts[i..])
  {
    var r := pts[..i] + [Pt(b, ChordY(pts[i - 1], pts[i], b))] + pts[i..];
    forall j, k | 0 <= j < k < |r| ensures r[j].x < r[k].x {
      if k < i {
        assert r[j] == pts[j] && r[k] == pts[k];
      } else if k == i {
        assert r[j] == pts[j] && pts[j].x <= pts[i - 1].x;
      } else if j == i {
        assert r[k] == pts[k - 1] && pts[i].x <= pts[k - 1].x;
      } else if j < i {
        assert r[j] == pts[j] && r[k] == pts[k - 1];
      } else {
        assert r[j] == pts[j - 1] && r[k] == pts[k - 1];
      }
    }
  }

  lemma InsertedKeepsVertices(pts: seq<Pt>, b: real, i: nat)
    requires Straddles(pts, i, b)
    ensures var r := pts[..i] + [Pt(b, ChordY(pts[i - 1], pts[i], b))] + pts[i..];
      r[0] == pts[0] && r[|r| - 1] == pts[|pts| - 1] && forall v :: v in pts ==> v in r
  {
    var r := pts[..i] + [Pt(b, ChordY(pts[i - 1], pts[i], b))] + pts[i..];
    forall v | v in pts ensures v in r {
      var j :| 0 <= j < |pts| && pts[j] == v;
      if j < i { assert r[j] == v; } else { assert r[j + 1] == v; }
    }
  }

  /**
    On increasing points, a break between the first and the last distance is a vertex distance
    afterwards: either it already was one, or a span strictly contains it and a vertex is inserted.
  */
  lemma InsertBreakMakesVertex(pts: seq<Pt>, b: real)
    requires IncreasingX(pts) && |pts| >= 1 && pts[0].x <= b <= pts[|pts| - 1].x
    ensures exists v :: v in InsertBreak(pts, b) && v.x == b
  {
    match FindStraddle(pts, b, 1)
    case Some(i) =>
      assert InsertBreak(pts, b)[i] == Pt(b, ChordY(pts[i - 1], pts[i], b));
    case None =>
      var k := VertexAtBreak(pts, b, 0);
      assert pts[k] in InsertBreak(pts, b);
  }

  /** With no straddling span, a break within the range of increasing points hits a vertex. */
  lemma {:induction false} VertexAtBreak(pts: seq<Pt>, b: real, i: nat) returns (k: nat)
    requires IncreasingX(pts) && i < |pts| && pts[i].x <= b <= pts[|pts| - 1].x
    requires forall j :: 1 <= j < |pts| ==> !Straddles(pts, j, b)
    ensures i <= k < |pts| && pts[k].x == b
    decreases |pts| - i
  {
    if pts[i].x == b {
      k := i;
    } else {
      assert i + 1 < |pts| && !Straddles(pts, i + 1, b);
      k := VertexAtBreak(pts, b, i + 1);
    }
  }

  /** The point list after the insertion loop of SplitByBands, one break after another. */
  function InsertAllBreaks(pts: seq<Pt>, breaks: seq<real>): (r: seq<Pt>)
    ensures |r| >= |pts|
    ensures pts == [] ==> r == []
  {
    if breaks == [] then pts
    else InsertBreak(InsertAllBreaks(pts, breaks[..|breaks| - 1]), breaks[|breaks| - 1])
  }

  /** An insertion never lands before the first or after the last point. */
  lemma InsertBreakKeepsEnds(pts: seq<Pt>, b: real)
    requires |pts| >= 1
    ensures var r := InsertBreak(pts, b); r[0] == pts[0] && r[|r| - 1] == pts[|pts| - 1]
  {
    match FindStraddle(pts, b, 1)
    case None =>
    case Some(i) =>
      InsertedKeepsVertices(pts, b, i);
  }

  /** Inserting all breaks into increasing points keeps the distances strictly increasing. */
  lemma {:induction false} InsertAllBreaksIncreasing(pts: seq<Pt>, breaks: seq<real>)
    requires IncreasingX(pts)
    ensures IncreasingX(InsertAllBreaks(pts, breaks))
  {
    if breaks != [] {
      var front := breaks[..|breaks| - 1];
      InsertAllBreaksIncreasing(pts, front);
      InsertBreakKeepsOrder(InsertAllBreaks(pts, front), breaks[|breaks| - 1]);
    }
  }

  /** Inserting all breaks keeps both end points. */
  lemma {:induction false} InsertAllBreaksKeepsEnds(pts: seq<Pt>, breaks: seq<real>)
    requires |pts| >= 1
    ensures var r := InsertAllBreaks(pts, breaks);
      r[0] == pts[0] && r[|r| - 1] == pts[|pts| - 1]
  {
    if breaks != [] {
      var front := breaks[..|breaks| - 1];
      InsertAllBreaksKeepsEnds(pts, front);
      InsertBreakKeepsEnds(InsertAllBreaks(pts, front), breaks[|breaks| - 1]);
    }
  }

  /**
    On increasing points every break within the first and last distance is a vertex distance once
    all breaks are inserted.
  */
  lemma {:induction false} InsertAllBreaksMakesVertices(pts: seq<Pt>, breaks: seq<real>)
    requires IncreasingX(pts) && |pts| >= 1
    ensures forall b :: b in breaks && pts[0].x <= b <= pts[|pts| - 1].x ==>
              exists v :: v in InsertAllBreaks(pts, breaks) && v.x == b
  {
    if breaks != [] {
      var front, last := breaks[..|breaks| - 1], breaks[|breaks| - 1];
      InsertAllBreaksMakesVertices(pts, front);
      InsertAllBreaksIncreasing(pts, front);
      InsertAllBreaksKeepsEnds(pts, front);
      var mid := InsertAllBreaks(pts, front);
      var r := InsertBreak(mid, last);
      assert InsertAllBreaks(pts, breaks) == r;
      InsertBreakKeepsOrder(mid, last);
      forall b | b in breaks && pts[0].x <= b <= pts[|pts| - 1].x
        ensures exists v :: v in r && v.x == b
      {
        if b == last {
          InsertBreakMakesVertex(mid, b);
        } else {
          assert b in front;
          var v :| v in mid && v.x == b;
          assert v in r;
        }
      }
    }
  }

  /** A buffer of the walk: the band it was closed in and its pairs (a seed point, then the walked points). */
  datatype Buffer = Buffer(band: int, pairs: seq<real>)

  /** The walked points of a buffer, without its seed. */
  function Tail(b: Buffer): seq<real> {
    if |b.pairs| >= 2 then b.pairs[2..] else []
  }

  function ConcatTails(bufs: seq<Buffer>): seq<real> {
    if bufs == [] then [] else ConcatTails(bufs[..|bufs| - 1]) + Tail(bufs[|bufs| - 1])
  }

  /** Add: a buffer becomes a segment of the band only when it holds at least two points. */
  function Add(res: seq<PolylineBandSegment>, band: int, buf: seq<real>): seq<PolylineBandSegment> {
    if |buf| >= 4 then res + [PolylineBandSegment(band, buf)] else res
  }

  /** The segments that the closed buffers give, in order. */
  function Kept(bufs: seq<Buffer>): seq<PolylineBandSegment> {
    if bufs == [] then [] else Add(Kept(bufs[..|bufs| - 1]), bufs[|bufs| - 1].band, bufs[|bufs| - 1].pairs)
  }

  /** The band of the j-th buffer: band 0, then one more per passed break, never beyond the last band. */
  function BandAfter(j: nat, bandCount: int): int {
    if j == 0 then 0 else if j < bandCount - 1 then j else bandCount - 1
  }

  /** Where buffer j starts: the first point, or the passed break at the closed buffer's last elevation. */
  function Seed(points: seq<Pt>, breaks: seq<real>, bufs: seq<Buffer>, j: nat): seq<real>
    requires |points| >= 1 && j <= |bufs| && j <= |breaks|
  {
    if j == 0 then [points[0].x, points[0].y]
    else if |bufs[j - 1].pairs| == 0 then []
    else [breaks[j - 1], bufs[j - 1].pairs[|bufs[j - 1].pairs| - 1]]
  }

  /** Every walked point of a buffer lies at or before that buffer's break. */
  predicate Confined(pairs: seq<real>, breaks: seq<real>, j: nat) {
    j < |breaks| ==> forall t :: 1 <= t < |pairs| && 2 * t + 1 < |pairs| ==> pairs[2 * t] <= breaks[j]
  }

  predicate BufferOk(points: seq<Pt>, breaks: seq<real>, bandCount: int, bufs: seq<Buffer>, j: nat)
    requires |points| >= 1 && j < |bufs| && j <= |breaks|
  {
    bufs[j].band == BandAfter(j, bandCount)
    && |bufs[j].pairs| >= 2 && |bufs[j].pairs| % 2 == 0
    && bufs[j].pairs[..2] == Seed(points, breaks, bufs, j)
    && Confined(bufs[j].pairs, breaks, j)
  }

  /** Buffer j was closed by the next walked point, which lies beyond break j. */
  predicate ClosedAt(points: seq<Pt>, breaks: seq<real>, bufs: seq<Buffer>, j: nat)
    requires j < |bufs|
  {
    ClosedBy(points, breaks, j, ConcatTails(bufs[..j + 1]))
  }

  /** After the given walked pairs, the next point after the first lies beyond break j. */
  predicate ClosedBy(points: seq<Pt>, breaks: seq<real>, j: nat, walked: seq<real>) {
    var c := |walked| / 2;
    j < |breaks| && 1 + c < |points| && points[1 + c].x > breaks[j]
  }

  /**
    The walk of BuildBandSegments: at most one buffer per break plus one; each buffer in its band,
    seeded and confined as above; each buffer but the last closed by a point beyond its break; the
    walked points of all buffers, in order, are exactly the points after the first; the segments are
    the buffers of at least two points.
  */
  ghost predicate IsBandSplit(points: seq<Pt>, breaks: seq<real>, bandCount: int, segs: seq<PolylineBandSegment>, bufs: seq<Buffer>)
    requires |points| >= 1
  {
    1 <= |bufs| <= |breaks| + 1
    && (forall j :: 0 <= j < |bufs| ==> BufferOk(points, breaks, bandCount, bufs, j))
    && (forall j :: 0 <= j < |bufs| - 1 ==> ClosedAt(points, breaks, bufs, j))
    && ConcatTails(bufs) == Flatten(points[1..])
    && segs == Kept(bufs)
  }

  lemma ConcatTailsAppend(bufs: seq<Buffer>, b: Buffer)
    ensures ConcatTails(bufs + [b]) == ConcatTails(bufs) + Tail(b)
    ensures Kept(bufs + [b]) == Add(Kept(bufs), b.band, b.pairs)
  {
    assert (bufs + [b])[..|bufs|] == bufs;
  }

  lemma FlattenAppend(points: seq<Pt>, i: nat)
    requires 1 <= i < |points|
    ensures Flatten(points[1..i + 1]) == Flatten(points[1..i]) + [points[i].x, points[i].y]
  {
    assert points[1..i + 1][..i - 1] == points[1..i];
  }

  /** Appending a buffer keeps what held of an earlier buffer. */
  lemma AppendKeepsBuffer(points: seq<Pt>, breaks: seq<real>, bandCount: int, bufs: seq<Buffer>, b: Buffer, j: nat)
    requires |points| >= 1 && j < |bufs| <= |breaks|
    ensures BufferOk(points, breaks, bandCount, bufs + [b], j) == BufferOk(points, breaks, bandCount, bufs, j)
    ensures ClosedAt(points, breaks, bufs + [b], j) == ClosedAt(points, breaks, bufs, j)
  {
    var nb := bufs + [b];
    assert nb[..j + 1] == bufs[..j + 1];
    assert nb[j] == bufs[j];
    assert j == 0 || nb[j - 1] == bufs[j - 1];
    assert Seed(points, breaks, nb, j) == Seed(points, breaks, bufs, j);
  }

  /** Appending a buffer keeps the facts about the buffers before it; the new one is closed when
      the point after its walked points lies beyond its break. */
  lemma AppendBuffer(points: seq<Pt>, breaks: seq<real>, bandCount: int, bufs: seq<Buffer>, b: Buffer)
    requires |points| >= 1 && |bufs| <= |breaks|
    requires forall j :: 0 <= j < |bufs| ==> BufferOk(points, breaks, bandCount, bufs, j)
    requires forall j :: 0 <= j < |bufs| ==> ClosedAt(points, breaks, bufs, j)
    requires b.band == BandAfter(|bufs|, bandCount) && |b.pairs| >= 2 && |b.pairs| % 2 == 0
    requires b.pairs[..2] == Seed(points, breaks, bufs, |bufs|) && Confined(b.pairs, breaks, |bufs|)
    ensures forall j :: 0 <= j < |bufs| + 1 ==> BufferOk(points, breaks, bandCount, bufs + [b], j)
    ensures forall j :: 0 <= j < |bufs| ==> ClosedAt(points, breaks, bufs + [b], j)
    ensures ClosedAt(points, breaks, bufs + [b], |bufs|) == ClosedBy(points, breaks, |bufs|, ConcatTails(bufs) + Tail(b))
  {
    var nb := bufs + [b];
    forall j | 0 <= j < |bufs| ensures BufferOk(points, breaks, bandCount, nb, j) && ClosedAt(points, breaks, nb, j) {
      AppendKeepsBuffer(points, breaks, bandCount, bufs, b, j);
    }
    AppendNewBuffer(points, breaks, bandCount, bufs, b);
  }

  lemma AppendNewBuffer(points: seq<Pt>, breaks: seq<real>, bandCount: int, bufs: seq<Buffer>, b: Buffer)
    requires |points| >= 1 && |bufs| <= |breaks|
    requires b.band == BandAfter(|bufs|, bandCount) && |b.pairs| >= 2 && |b.pairs| % 2 == 0
    requires b.pairs[..2] == Seed(points, breaks, bufs, |bufs|) && Confined(b.pairs, breaks, |bufs|)
    ensures BufferOk(points, breaks, bandCount, bufs + [b], |bufs|)
    ensures ClosedAt(points, breaks, bufs + [b], |bufs|) == ClosedBy(points, breaks, |bufs|, ConcatTails(bufs) + Tail(b))
  {
    AppendNewBufferOk(points, breaks, bandCount, bufs, b);
    AppendNewBufferClosed(points, breaks, bufs, b);
  }

  lemma AppendNewBufferOk(points: seq<Pt>, breaks: seq<real>, bandCount: int, bufs: seq<Buffer>, b: Buffer)
    requires |points| >= 1 && |bufs| <= |breaks|
    requires b.band == BandAfter(|bufs|, bandCount) && |b.pairs| >= 2 && |b.pairs| % 2 == 0
    requires b.pairs[..2] == Seed(points, breaks, bufs, |bufs|) && Confined(b.pairs, breaks, |bufs|)
    ensures BufferOk(points, breaks, bandCount, bufs + [b], |bufs|)
  {
    var nb := bufs + [b];
    assert nb[|bufs|] == b;
    assert |bufs| == 0 || nb[|bufs| - 1] == bufs[|bufs| - 1];
    assert Seed(points, breaks, nb, |bufs|) == Seed(points, breaks, bufs, |bufs|);
  }

  lemma AppendNewBufferClosed(points: seq<Pt>, breaks: seq<real>, bufs: seq<Buffer>, b: Buffer)
    ensures ClosedAt(points, breaks, bufs + [b], |bufs|) == ClosedBy(points, breaks, |bufs|, ConcatTails(bufs) + Tail(b))
  {
    var nb := bufs + [b];
    assert nb[..|bufs| + 1] == nb;
    assert ConcatTails(nb) == ConcatTails(bufs) + Tail(b) by {
      assert nb[..|bufs|] == bufs;
    }
  }

  /** The next break to pass, or none once every break is passed (double.MaxValue in the code). */
  function NextBreak(breaks: seq<real>, bi: nat): Option<real> {
    if bi < |breaks| then Some(breaks[bi]) else None
  }

  /**
    The state of the walk before point i: the closed buffers, the open buffer buf of band `band`,
    the index bi of the next break to pass, and the segments kept so far.
  */
  ghost predicate Walking(points: seq<Pt>, breaks: seq<real>, bandCount: int, i: nat,
                          segs: seq<PolylineBandSegment>, bufs: seq<Buffer>, buf: seq<real>,
                          band: int, bi: nat, nextBreak: Option<real>)
    requires |points| >= 1
  {
    1 <= i <= |points| && bi == |bufs| <= |breaks|
    && band == BandAfter(bi, bandCount) && nextBreak == NextBreak(breaks, bi)
    && |buf| >= 2 && |buf| % 2 == 0
    && buf[..2] == Seed(points, breaks, bufs, bi) && Confined(buf, breaks, bi)
    && (forall j :: 0 <= j < |bufs| ==> BufferOk(points, breaks, bandCount, bufs, j))
    && (forall j :: 0 <= j < |bufs| ==> ClosedAt(points, breaks, bufs, j))
    && ConcatTails(bufs) + buf[2..] == Flatten(points[1..i])
    && segs == Kept(bufs)
  }

  /** Passing a break: the open buffer is closed and a new one starts at the break. */
  lemma CloseStep(points: seq<Pt>, breaks: seq<real>, bandCount: int, i: nat,
                  segs: seq<PolylineBandSegment>, bufs: seq<Buffer>, buf: seq<real>,
                  band: int, bi: nat, nextBreak: Option<real>)
    requires |points| >= 1 && Walking(points, breaks, bandCount, i, segs, bufs, buf, band, bi, nextBreak)
    requires i < |points| && nextBreak.Some? && points[i].x > nextBreak.value
    ensures Walking(points, breaks, bandCount, i, Add(segs, band, buf), bufs + [Buffer(band, buf)],
                    [nextBreak.value, buf[|buf| - 1]], if band + 1 < bandCount - 1 then band + 1 else bandCount - 1,
                    bi + 1, NextBreak(breaks, bi + 1))
  {
    var closed := Buffer(band, buf);
    var nb := bufs + [closed];
    var nbuf := [nextBreak.value, buf[|buf| - 1]];
    CloseStepBuffers(points, breaks, bandCount, i, bufs, buf, band, bi, nextBreak);
    CloseStepSeed(points, breaks, bufs, buf, band, bi, nextBreak);
    ConcatTailsAppend(bufs, closed);
    assert Tail(closed) == buf[2..];
    assert ConcatTails(nb) + nbuf[2..] == Flatten(points[1..i]) by {
      assert nbuf[2..] == [];
    }
    assert Add(segs, band, buf) == Kept(nb);
    assert BandAfter(bi + 1, bandCount) == if band + 1 < bandCount - 1 then band + 1 else bandCount - 1;
  }

  /** The closed buffer joins the others: every buffer, the new one included, is well formed and closed. */
  lemma CloseStepBuffers(points: seq<Pt>, breaks: seq<real>, bandCount: int, i: nat,
                         bufs: seq<Buffer>, buf: seq<real>, band: int, bi: nat, nextBreak: Option<real>)
    requires |points| >= 1 && 1 <= i < |points| && bi == |bufs| < |breaks|
    requires band == BandAfter(bi, bandCount) && nextBreak == NextBreak(breaks, bi)
    requires |buf| >= 2 && |buf| % 2 == 0
    requires buf[..2] == Seed(points, breaks, bufs, bi) && Confined(buf, breaks, bi)
    requires forall j :: 0 <= j < |bufs| ==> BufferOk(points, breaks, bandCount, bufs, j)
    requires forall j :: 0 <= j < |bufs| ==> ClosedAt(points, breaks, bufs, j)
    requires ConcatTails(bufs) + buf[2..] == Flatten(points[1..i])
    requires points[i].x > breaks[bi]
    ensures forall j :: 0 <= j < |bufs| + 1 ==> BufferOk(points, breaks, bandCount, bufs + [Buffer(band, buf)], j)
    ensures forall j :: 0 <= j < |bufs| + 1 ==> ClosedAt(points, breaks, bufs + [Buffer(band, buf)], j)
  {
    var closed := Buffer(band, buf);
    var nb := bufs + [closed];
    AppendBuffer(points, breaks, bandCount, bufs, closed);
    ClosedAtBreak(points, breaks, i, bufs, closed);
  }

  /** A buffer whose walked points end just before point i is closed when point i lies beyond its break. */
  lemma ClosedAtBreak(points: seq<Pt>, breaks: seq<real>, i: nat, bufs: seq<Buffer>, closed: Buffer)
    requires 1 <= i < |points| && |bufs| < |breaks| && |closed.pairs| >= 2
    requires ConcatTails(bufs) + closed.pairs[2..] == Flatten(points[1..i])
    requires points[i].x > breaks[|bufs|]
    ensures ClosedBy(points, breaks, |bufs|, ConcatTails(bufs) + Tail(closed))
  {
    var walked := ConcatTails(bufs) + Tail(closed);
    assert |walked| == 2 * (i - 1);
    HalfOfDouble(|walked|, i - 1);
  }

  /** The new open buffer starts at the passed break, at the last y of the closed one. */
  lemma CloseStepSeed(points: seq<Pt>, breaks: seq<real>, bufs: seq<Buffer>, buf: seq<real>,
                      band: int, bi: nat, nextBreak: Option<real>)
    requires |points| >= 1 && bi == |bufs| < |breaks| && |buf| >= 2
    requires nextBreak == NextBreak(breaks, bi)
    ensures var nbuf := [nextBreak.value, buf[|buf| - 1]];
      nbuf[..2] == Seed(points, breaks, bufs + [Buffer(band, buf)], bi + 1) && Confined(nbuf, breaks, bi + 1)
  {
    var nb := bufs + [Buffer(band, buf)];
    assert nb[bi] == Buffer(band, buf);
  }

  /** Appending point i to the open buffer. */
  lemma AppendStep(points: seq<Pt>, breaks: seq<real>, bandCount: int, i: nat,
                   segs: seq<PolylineBandSegment>, bufs: seq<Buffer>, buf: seq<real>,
                   band: int, bi: nat, nextBreak: Option<real>)
    requires |points| >= 1 && Walking(points, breaks, bandCount, i, segs, bufs, buf, band, bi, nextBreak)
    requires i < |points| && !(nextBreak.Some? && points[i].x > nextBreak.value)
    ensures Walking(points, breaks, bandCount, i + 1, segs, bufs, buf + [points[i].x, points[i].y], band, bi, nextBreak)
  {
    var nbuf := buf + [points[i].x, points[i].y];
    ConfinedAppend(buf, points[i].x, points[i].y, breaks, bi);
    EvenStep(|buf|);
    FlattenAppend(points, i);
    assert nbuf[2..] == buf[2..] + [points[i].x, points[i].y];
    assert nbuf[..2] == buf[..2];
  }

  /** A buffer stays confined when the appended point lies at or before the break. */
  lemma ConfinedAppend(buf: seq<real>, x: real, y: real, breaks: seq<real>, j: nat)
    requires |buf| % 2 == 0 && Confined(buf, breaks, j)
    requires j < |breaks| ==> x <= breaks[j]
    ensures Confined(buf + [x, y], breaks, j)
  {
    var nbuf := buf + [x, y];
    if j < |breaks| {
      forall t | 1 <= t < |nbuf| && 2 * t + 1 < |nbuf| ensures nbuf[2 * t] <= breaks[j] {
        if 2 * t + 1 < |buf| { assert nbuf[2 * t] == buf[2 * t]; }
      }
    }
  }

  /** The end of the walk: the open buffer is added last. */
  lemma FinishWalk(points: seq<Pt>, breaks: seq<real>, bandCount: int,
                   segs: seq<PolylineBandSegment>, bufs: seq<Buffer>, buf: seq<real>,
                   band: int, bi: nat, nextBreak: Option<real>)
    requires |points| >= 1 && Walking(points, breaks, bandCount, |points|, segs, bufs, buf, band, bi, nextBreak)
    ensures IsBandSplit(points, breaks, bandCount, Add(segs, band, buf), bufs + [Buffer(band, buf)])
  {
    var last := Buffer(band, buf);
    assert Tail(last) == buf[2..];
    AppendBuffer(points, breaks, bandCount, bufs, last);
    ConcatTailsAppend(bufs, last);
    assert points[1..|points|] == points[1..];
  }

  /** The inner loop of BuildBandSegments: passes every break that point i lies beyond. */
  method PassBreaks(points: seq<Pt>, breaks: seq<real>, bandCount: int, i: nat,
                    segs0: seq<PolylineBandSegment>, ghost bufs0: seq<Buffer>, buf0: seq<real>,
                    band0: int, bi0: nat, nextBreak0: Option<real>)
    returns (segs: seq<PolylineBandSegment>, ghost bufs: seq<Buffer>, buf: seq<real>,
             band: int, bi: nat, nextBreak: Option<real>)
    requires |points| >= 1 && i < |points|
    requires Walking(points, breaks, bandCount, i, segs0, bufs0, buf0, band0, bi0, nextBreak0)
    ensures Walking(points, breaks, bandCount, i, segs, bufs, buf, band, bi, nextBreak)
    ensures !(nextBreak.Some? && points[i].x > nextBreak.value)
  {
    segs, bufs, buf, band, bi, nextBreak := segs0, bufs0, buf0, band0, bi0, nextBreak0;
    var p := points[i];
    while nextBreak.Some? && p.x > nextBreak.value
      invariant Walking(points, breaks, bandCount, i, segs, bufs, buf, band, bi, nextBreak)
      decreases |breaks| - bi
    {
      segs, bufs, buf, band, bi, nextBreak := PassBreak(points, breaks, bandCount, i, segs, bufs, buf, band, bi, nextBreak);
    }
  }

  /**
    One pass of the inner loop: the open buffer is closed into a segment of its band, the new
    buffer starts at the break with the closed buffer's last elevation, and the next break is read.
  */
  method PassBreak(points: seq<Pt>, breaks: seq<real>, bandCount: int, i: nat,
                   segs0: seq<PolylineBandSegment>, ghost bufs0: seq<Buffer>, buf0: seq<real>,
                   band0: int, bi0: nat, nextBreak0: Option<real>)
    returns (segs: seq<PolylineBandSegment>, ghost bufs: seq<Buffer>, buf: seq<real>,
             band: int, bi: nat, nextBreak: Option<real>)
    requires |points| >= 1 && Walking(points, breaks, bandCount, i, segs0, bufs0, buf0, band0, bi0, nextBreak0)
    requires i < |points| && nextBreak0.Some? && points[i].x > nextBreak0.value
    ensures Walking(points, breaks, bandCount, i, segs, bufs, buf, band, bi, nextBreak)
    ensures bi == bi0 + 1 && bufs == bufs0 + [Buffer(band0, buf0)]
    ensures buf == [nextBreak0.value, buf0[|buf0| - 1]]
  {
    CloseStep(points, breaks, bandCount, i, segs0, bufs0, buf0, band0, bi0, nextBreak0);
    segs, bufs := Add(segs0, band0, buf0), bufs0 + [Buffer(band0, buf0)];
    buf := [nextBreak0.value, buf0[|buf0| - 1]];
    band := if band0 + 1 < bandCount - 1 then band0 + 1 else bandCount - 1;
    bi := bi0 + 1;
    nextBreak := NextBreak(breaks, bi);
  }

  /**
    BuildBandSegments: the walk over the break-augmented points. The ghost output lists every
    buffer, kept or dropped.
  */
  method BuildBandSegments(points: seq<Pt>, breaks: seq<real>, bandCount: int)
    returns (segs: seq<PolylineBandSegment>, ghost bufs: seq<Buffer>)
    requires |points| >= 1
    ensures IsBandSplit(points, breaks, bandCount, segs, bufs)
  {
    segs, bufs := [], [];
    var band, bi := 0, 0;
    var nextBreak := if |breaks| > 0 then Some(breaks[0]) else None;
    var buf := [points[0].x, points[0].y];
    var i := 1;
    while i < |points|
      invariant Walking(points, breaks, bandCount, i, segs, bufs, buf, band, bi, nextBreak)
      decreases |points| - i
    {
      segs, bufs, buf, band, bi, nextBreak := PassBreaks(points, breaks, bandCount, i, segs, bufs, buf, band, bi, nextBreak);
      var p := points[i];
      AppendStep(points, breaks, bandCount, i, segs, bufs, buf, band, bi, nextBreak);
      buf := buf + [p.x, p.y];
      i := i + 1;
    }
    FinishWalk(points, breaks, bandCount, segs, bufs, buf, band, bi, nextBreak);
    segs := Add(segs, band, buf);
    bufs := bufs + [Buffer(band, buf)];
  }

  /**
    SplitByBands: reading the pair array fails on an odd length (an array index out of range), and
    the walk fails on an empty one (the list indexer's argument out of range); otherwise the effective breaks are inserted one after another and the
    augmented points are walked with the band count of the band set.
  */
  method SplitByBands(pairs: seq<real>, bands: ProfileBandSet)
    returns (r: Result<seq<PolylineBandSegment>, Error>, ghost bufs: seq<Buffer>)
    ensures r.Failure? <==> |pairs| % 2 == 1 || |pairs| == 0
    ensures |pairs| % 2 == 1 ==> r == Failure(IndexOutOfRange)
    ensures |pairs| == 0 ==> r == Failure(ArgumentOutOfRange("index"))
    ensures r.Success? ==>
      var breaks := EffectiveBreaks(bands.breakKms);
      var points := InsertAllBreaks(ReadPoints(pairs), breaks);
      |points| >= 1 && IsBandSplit(points, breaks, bands.BandCount(), r.value, bufs)
  {
    var breaks := EffectiveBreaks(bands.breakKms);
    if |pairs| % 2 == 1 {
      return Failure(IndexOutOfRange), [];
    }
    var points := InsertBreaks(ReadPoints(pairs), breaks);
    if |points| == 0 {
      return Failure(ArgumentOutOfRange("index")), [];
    }
    var segs;
    segs, bufs := BuildBandSegments(points, breaks, bands.BandCount());
    r := Success(segs);
  }

  /** The insertion loop of SplitByBands: the breaks are inserted one after another, in order. */
  method InsertBreaks(pts: seq<Pt>, breaks: seq<real>) returns (points: seq<Pt>)
    ensures points == InsertAllBreaks(pts, breaks)
  {
    points := pts;
    var j := 0;
    while j < |breaks|
      invariant 0 <= j <= |breaks|
      invariant points == InsertAllBreaks(pts, breaks[..j])
    {
      points := InsertBreakpoint(points, breaks[j]);
      assert breaks[..j + 1][..j] == breaks[..j];
      j := j + 1;
    }
    assert breaks[..j] == breaks;
  }

  /**
    The kept segments of a walk are pair arrays of at least two points; with at least one band
    their band indexes lie in range and never decrease along the result.
  */
  lemma {:induction false} KeptSegments(bufs: seq<Buffer>, bandCount: int)
    requires forall j :: 0 <= j < |bufs| ==> bufs[j].band == BandAfter(j, bandCount) && |bufs[j].pairs| % 2 == 0
    ensures forall k :: 0 <= k < |Kept(bufs)| ==> IsPairs(Kept(bufs)[k].pairs)
    ensures bandCount >= 1 ==> forall k :: 0 <= k < |Kept(bufs)| ==> 0 <= Kept(bufs)[k].bandIndex < bandCount
    ensures bandCount >= 1 && |bufs| >= 1 ==>
      forall k :: 0 <= k < |Kept(bufs)| ==> Kept(bufs)[k].bandIndex <= BandAfter(|bufs| - 1, bandCount)
    ensures bandCount >= 1 ==> forall k1, k2 :: 0 <= k1 <= k2 < |Kept(bufs)| ==> Kept(bufs)[k1].bandIndex <= Kept(bufs)[k2].bandIndex
  {
    if bufs != [] {
      var front := bufs[..|bufs| - 1];
      KeptSegments(front, bandCount);
    }
  }

  /** What a walk gives, segment by segment. */
  lemma BandSplitSegments(points: seq<Pt>, breaks: seq<real>, bandCount: int, segs: seq<PolylineBandSegment>, bufs: seq<Buffer>)
    requires |points| >= 1 && IsBandSplit(points, breaks, bandCount, segs, bufs)
    ensures forall k :: 0 <= k < |segs| ==> IsPairs(segs[k].pairs)
    ensures bandCount >= 1 ==> forall k :: 0 <= k < |segs| ==> 0 <= segs[k].bandIndex < bandCount
    ensures bandCount >= 1 ==> forall k1, k2 :: 0 <= k1 <= k2 < |segs| ==> segs[k1].bandIndex <= segs[k2].bandIndex
  {
    forall j | 0 <= j < |bufs| ensures bufs[j].band == BandAfter(j, bandCount) && |bufs[j].pairs| % 2 == 0 {
      assert BufferOk(points, breaks, bandCount, bufs, j);
    }
    KeptSegments(bufs, bandCount);
  }

  lemma {:induction false} FlattenCons(pts: seq<Pt>)
    requires |pts| >= 1
    ensures Flatten(pts) == [pts[0].x, pts[0].y] + Flatten(pts[1..])
  {
    if |pts| > 1 {
      FlattenCons(pts[..|pts| - 1]);
      assert pts[..|pts| - 1][1..] == pts[1..][..|pts| - 2];
    }
  }

  /** Without breaks the walk keeps the whole polyline as one segment of band 0 (if it has two points). */
  lemma NoBreaksSingleSegment(points: seq<Pt>, bandCount: int, segs: seq<PolylineBandSegment>, bufs: seq<Buffer>)
    requires |points| >= 1 && IsBandSplit(points, [], bandCount, segs, bufs)
    ensures |points| >= 2 ==> segs == [PolylineBandSegment(0, Flatten(points))]
    ensures |points| == 1 ==> segs == []
  {
    assert |bufs| == 1 && BufferOk(points, [], bandCount, bufs, 0);
    var b := bufs[0];
    assert bufs == [] + [b];
    ConcatTailsAppend([], b);
    assert b.pairs[2..] == Flatten(points[1..]);
    FlattenCons(points);
    assert b.pairs == b.pairs[..2] + b.pairs[2..];
    assert b.pairs == Flatten(points);
    assert b.band == 0;
  }
}
