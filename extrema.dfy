/**
  PipeExtremaDetector: the interior vertices of the pipe line that are strict local maxima
  (air valve, "vantuz", candidates) and strict local minima (drain, "tahliye", candidates).
*/
module Extrema {
  import opened Geometry

  /** Vertex i has a neighbour on each side: 1 <= i and i + 1 < n, with n = |pairs| / 2 points. */
  predicate Interior(pairs: seq<real>, i: nat) {
    1 <= i && 2 * i + 3 < |pairs|
  }

  /** Vertex i is higher than both neighbours. */
  predicate IsPeak(pairs: seq<real>, i: nat) {
    Interior(pairs, i) && pairs[2 * i - 1] < pairs[2 * i + 1] && pairs[2 * i + 1] > pairs[2 * i + 3]
  }

  /** Vertex i is lower than both neighbours. */
  predicate IsTrough(pairs: seq<real>, i: nat) {
    Interior(pairs, i) && pairs[2 * i - 1] > pairs[2 * i + 1] && pairs[2 * i + 1] < pairs[2 * i + 3]
  }

  /** The distances of the peaks among the vertices before k, in vertex order. */
  function PeaksBefore(pairs: seq<real>, k: nat): seq<real> {
    if k == 0 then [] else PeaksBefore(pairs, k - 1) + (if IsPeak(pairs, k - 1) then [pairs[2 * (k - 1)]] else [])
  }

  /** The distances of the troughs among the vertices before k, in vertex order. */
  function TroughsBefore(pairs: seq<real>, k: nat): seq<real> {
    if k == 0 then [] else TroughsBefore(pairs, k - 1) + (if IsTrough(pairs, k - 1) then [pairs[2 * (k - 1)]] else [])
  }

  /** The vertex count the detector works with (an odd trailing entry is ignored). */
  function PointCount(pairs: seq<real>): nat {
    |pairs| / 2
  }

  /**
    Detect: arrays of fewer than three points give two empty lists; otherwise every interior vertex
    is compared with its two neighbours, and strict maxima and strict minima are reported in order.
  */
  method Detect(pairs: seq<real>) returns (vantuzKms: seq<real>, tahliyeKms: seq<real>)
    ensures |pairs| < 6 ==> vantuzKms == [] && tahliyeKms == []
    ensures vantuzKms == PeaksBefore(pairs, PointCount(pairs))
    ensures tahliyeKms == TroughsBefore(pairs, PointCount(pairs))
  {
    vantuzKms, tahliyeKms := [], [];
    if |pairs| < 6 {
      NoneBefore(pairs, PointCount(pairs));
      return;
    }
    var n := |pairs| / 2;
    var i := 1;
    assert !IsPeak(pairs, 0) && !IsTrough(pairs, 0);
    while i < n - 1
      invariant 1 <= i <= n - 1
      invariant vantuzKms == PeaksBefore(pairs, i) && tahliyeKms == TroughsBefore(pairs, i)
    {
      var yPrev := pairs[(i - 1) * 2 + 1];
      var kmCur, yCur := pairs[i * 2], pairs[i * 2 + 1];
      var yNext := pairs[(i + 1) * 2 + 1];
      if yPrev < yCur && yCur > yNext {
        vantuzKms := vantuzKms + [kmCur];
      }
      if yPrev > yCur && yCur < yNext {
        tahliyeKms := tahliyeKms + [kmCur];
      }
      i := i + 1;
    }
    assert !IsPeak(pairs, n - 1) && !IsTrough(pairs, n - 1);
  }

  /** Below three points no vertex is interior. */
  lemma {:induction false} NoneBefore(pairs: seq<real>, k: nat)
    requires |pairs| < 6
    ensures PeaksBefore(pairs, k) == [] && TroughsBefore(pairs, k) == []
  {
    if k > 0 {
      NoneBefore(pairs, k - 1);
    }
  }

  /** A distance is reported as a peak exactly when some vertex before k is a peak at that distance. */
  lemma {:induction false} PeaksBeforeMembers(pairs: seq<real>, k: nat, x: real)
    ensures x in PeaksBefore(pairs, k) <==> exists i: nat :: i < k && IsPeak(pairs, i) && pairs[2 * i] == x
  {
    if k > 0 {
      PeaksBeforeMembers(pairs, k - 1, x);
      if x in PeaksBefore(pairs, k) && x !in PeaksBefore(pairs, k - 1) {
        assert IsPeak(pairs, k - 1) && pairs[2 * (k - 1)] == x;
      }
    }
  }

  lemma {:induction false} TroughsBeforeMembers(pairs: seq<real>, k: nat, x: real)
    ensures x in TroughsBefore(pairs, k) <==> exists i: nat :: i < k && IsTrough(pairs, i) && pairs[2 * i] == x
  {
    if k > 0 {
      TroughsBeforeMembers(pairs, k - 1, x);
      if x in TroughsBefore(pairs, k) && x !in TroughsBefore(pairs, k - 1) {
        assert IsTrough(pairs, k - 1) && pairs[2 * (k - 1)] == x;
      }
    }
  }

  /** The reported air valve distances are exactly the distances of the strict local maxima. */
  lemma VantuzAreStrictMaxima(pairs: seq<real>, x: real)
    ensures x in PeaksBefore(pairs, PointCount(pairs)) <==> exists i: nat :: IsPeak(pairs, i) && pairs[2 * i] == x
  {
    PeaksBeforeMembers(pairs, PointCount(pairs), x);
  }

  /** The reported drain distances are exactly the distances of the strict local minima. */
  lemma TahliyeAreStrictMinima(pairs: seq<real>, x: real)
    ensures x in TroughsBefore(pairs, PointCount(pairs)) <==> exists i: nat :: IsTrough(pairs, i) && pairs[2 * i] == x
  {
    TroughsBeforeMembers(pairs, PointCount(pairs), x);
  }

  /** Together the two lists hold at most one distance per interior vertex. */
  lemma {:induction false} ReportedAtMostInterior(pairs: seq<real>, k: nat)
    ensures |PeaksBefore(pairs, k)| + |TroughsBefore(pairs, k)| <= if k <= 1 then 0 else k - 1
  {
    if k > 0 {
      ReportedAtMostInterior(pairs, k - 1);
      if k == 1 {
        assert !IsPeak(pairs, 0) && !IsTrough(pairs, 0);
      }
    }
  }

  /** The last vertex is not interior, so together the lists hold at most n - 2 distances. */
  lemma ReportedAtMostNMinus2(pairs: seq<real>)
    ensures var n := PointCount(pairs);
      |PeaksBefore(pairs, n)| + |TroughsBefore(pairs, n)| <= if n <= 2 then 0 else n - 2
  {
    var n := PointCount(pairs);
    if n >= 1 {
      assert !IsPeak(pairs, n - 1) && !IsTrough(pairs, n - 1);
      ReportedAtMostInterior(pairs, n - 1);
    }
  }

  /** With strictly increasing distances no distance is both an air valve and a drain. */
  lemma VantuzAndTahliyeDisjoint(pairs: seq<real>, x: real)
    requires StrictlyIncreasingKm(pairs)
    ensures !(x in PeaksBefore(pairs, PointCount(pairs)) && x in TroughsBefore(pairs, PointCount(pairs)))
  {
    VantuzAreStrictMaxima(pairs, x);
    TahliyeAreStrictMinima(pairs, x);
    forall i: nat, j: nat | IsPeak(pairs, i) && IsTrough(pairs, j) ensures pairs[2 * i] != pairs[2 * j] {
      SameKmSameVertexOrNot(pairs, i, j);
    }
  }

  /** With strictly increasing distances the first and last vertex are never reported. */
  lemma EndpointsNotReported(pairs: seq<real>)
    requires StrictlyIncreasingKm(pairs) && |pairs| >= 2 && |pairs| % 2 == 0
    ensures pairs[0] !in PeaksBefore(pairs, PointCount(pairs)) && pairs[0] !in TroughsBefore(pairs, PointCount(pairs))
    ensures pairs[|pairs| - 2] !in PeaksBefore(pairs, PointCount(pairs)) && pairs[|pairs| - 2] !in TroughsBefore(pairs, PointCount(pairs))
  {
    EndpointNotReported(pairs, 0);
    EndpointNotReported(pairs, PointCount(pairs) - 1);
  }

  /** A vertex that is not interior shares its distance with no interior vertex, so it is not reported. */
  lemma EndpointNotReported(pairs: seq<real>, j: nat)
    requires StrictlyIncreasingKm(pairs) && 2 * j < |pairs| && !Interior(pairs, j)
    ensures pairs[2 * j] !in PeaksBefore(pairs, PointCount(pairs)) && pairs[2 * j] !in TroughsBefore(pairs, PointCount(pairs))
  {
    VantuzAreStrictMaxima(pairs, pairs[2 * j]);
    TahliyeAreStrictMinima(pairs, pairs[2 * j]);
    forall i | Interior(pairs, i) ensures pairs[2 * i] != pairs[2 * j] {
      SameKmSameVertexOrNot(pairs, i, j);
    }
  }

  lemma SameKmSameVertexOrNot(pairs: seq<real>, i: nat, j: nat)
    requires StrictlyIncreasingKm(pairs) && 2 * i < |pairs| && 2 * j < |pairs| && i != j
    ensures pairs[2 * i] != pairs[2 * j]
  {
    if i < j { assert pairs[2 * i] < pairs[2 * j]; } else { assert pairs[2 * j] < pairs[2 * i]; }
  }

  /** Every distance in the list before vertex k lies before the distance of any vertex j at or after k. */
  lemma {:induction false} PeaksBeforeBelow(pairs: seq<real>, k: nat, j: nat)
    requires StrictlyIncreasingKm(pairs) && k <= j && 2 * j < |pairs|
    ensures forall a :: 0 <= a < |PeaksBefore(pairs, k)| ==> PeaksBefore(pairs, k)[a] < pairs[2 * j]
  {
    if k > 0 {
      PeaksBeforeBelow(pairs, k - 1, j);
      if IsPeak(pairs, k - 1) {
        assert pairs[2 * (k - 1)] < pairs[2 * j];
      }
    }
  }

  /** With strictly increasing distances the air valve list is strictly increasing. */
  lemma {:induction false} VantuzInOrder(pairs: seq<real>, k: nat)
    requires StrictlyIncreasingKm(pairs)
    ensures forall a, b :: 0 <= a < b < |PeaksBefore(pairs, k)| ==> PeaksBefore(pairs, k)[a] < PeaksBefore(pairs, k)[b]
  {
    if k > 0 {
      VantuzInOrder(pairs, k - 1);
      var p := PeaksBefore(pairs, k - 1);
      if IsPeak(pairs, k - 1) {
        PeaksBeforeBelow(pairs, k - 1, k - 1);
        AppendAboveIncreasing(p, pairs[2 * (k - 1)]);
      } else {
        assert PeaksBefore(pairs, k) == p;
      }
    }
  }

  /** Every distance in the list before vertex k lies before the distance of any vertex j at or after k. */
  lemma {:induction false} TroughsBeforeBelow(pairs: seq<real>, k: nat, j: nat)
    requires StrictlyIncreasingKm(pairs) && k <= j && 2 * j < |pairs|
    ensures forall a :: 0 <= a < |TroughsBefore(pairs, k)| ==> TroughsBefore(pairs, k)[a] < pairs[2 * j]
  {
    if k > 0 {
      TroughsBeforeBelow(pairs, k - 1, j);
      if IsTrough(pairs, k - 1) {
        assert pairs[2 * (k - 1)] < pairs[2 * j];
      }
    }
  }

  /** With strictly increasing distances the drain list is strictly increasing. */
  lemma {:induction false} TahliyeInOrder(pairs: seq<real>, k: nat)
    requires StrictlyIncreasingKm(pairs)
    ensures forall a, b :: 0 <= a < b < |TroughsBefore(pairs, k)| ==> TroughsBefore(pairs, k)[a] < TroughsBefore(pairs, k)[b]
  {
    if k > 0 {
      TahliyeInOrder(pairs, k - 1);
      var t := TroughsBefore(pairs, k - 1);
      if IsTrough(pairs, k - 1) {
        TroughsBeforeBelow(pairs, k - 1, k - 1);
        AppendAboveIncreasing(t, pairs[2 * (k - 1)]);
      } else {
        assert TroughsBefore(pairs, k) == t;
      }
    }
  }

  lemma AppendAboveIncreasing(s: seq<real>, x: real)
    requires forall a, b :: 0 <= a < b < |s| ==> s[a] < s[b]
    requires forall a :: 0 <= a < |s| ==> s[a] < x
    ensures forall a, b :: 0 <= a < b < |s + [x]| ==> (s + [x])[a] < (s + [x])[b]
  {
  }
}
