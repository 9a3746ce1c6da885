/**
  The stand-alone vertical break engine (HydraulicVerticalBreakService): a hydraulic series is cut
  into pieces so that the values of each piece stay within 4 m below a reference top that drops by
  4 m at every cut.
*/
module VerticalBreak {
  import opened Wrappers
  import opened Domain

  const Step: real := 4.0

  /** The pieces laid end to end. */
  function Concat(pieces: seq<seq<real>>): (r: seq<real>)
    ensures |pieces| == 0 ==> r == []
  {
    if pieces == [] then [] else Concat(pieces[..|pieces| - 1]) + pieces[|pieces| - 1]
  }

  lemma ConcatAppend(pieces: seq<seq<real>>, p: seq<real>)
    ensures Concat(pieces + [p]) == Concat(pieces) + p
  {
    assert (pieces + [p])[..|pieces|] == pieces;
  }

  /** Every value of a piece of pairs lies at or above the floor of stripe k (topLimit - 4(k+1)). */
  predicate InStripe(piece: seq<real>, topLimit: real, k: nat) {
    forall t :: 0 <= t < |piece| / 2 ==> piece[2 * t + 1] >= topLimit - Step * (k + 1) as real
  }

  /** Piece k was cut because the next value of the series lies below the floor of its stripe. */
  predicate CutBelow(pairs: seq<real>, pieces: seq<seq<real>>, topLimit: real, k: nat)
    requires k < |pieces|
  {
    var c := |Concat(pieces[..k + 1])|;
    c + 1 < |pairs| && pairs[c + 1] < topLimit - Step * (k + 1) as real
  }

  /** The loop state before the pair at index i: the cut pieces, the open buffer and the top. */
  predicate Cutting(pairs: seq<real>, topLimit: real, i: nat, pieces: seq<seq<real>>, buf: seq<real>, top: real) {
    i <= |pairs| && i % 2 == 0 && |pairs| % 2 == 0
    && top == topLimit - Step * |pieces| as real
    && Concat(pieces) + buf == pairs[..i]
    && |buf| % 2 == 0 && InStripe(buf, topLimit, |pieces|)
    && (forall k :: 0 <= k < |pieces| ==> |pieces[k]| % 2 == 0 && InStripe(pieces[k], topLimit, k))
    && (forall k :: 0 <= k < |pieces| ==> CutBelow(pairs, pieces, topLimit, k))
  }

  lemma CutStep(pairs: seq<real>, topLimit: real, i: nat, pieces: seq<seq<real>>, buf: seq<real>, top: real)
    requires Cutting(pairs, topLimit, i, pieces, buf, top)
    requires i < |pairs| && pairs[i + 1] < top - Step
    ensures Cutting(pairs, topLimit, i, pieces + [buf], [], top - Step)
  {
    var np := pieces + [buf];
    ConcatAppend(pieces, buf);
    assert np[..|pieces| + 1] == np;
    forall k | 0 <= k < |pieces| ensures CutBelow(pairs, np, topLimit, k) {
      assert np[..k + 1] == pieces[..k + 1];
      assert CutBelow(pairs, pieces, topLimit, k);
    }
    assert CutBelow(pairs, np, topLimit, |pieces|);
  }

  lemma AppendPairStep(pairs: seq<real>, topLimit: real, i: nat, pieces: seq<seq<real>>, buf: seq<real>, top: real)
    requires Cutting(pairs, topLimit, i, pieces, buf, top)
    requires i < |pairs| && !(pairs[i + 1] < top - Step)
    ensures Cutting(pairs, topLimit, i + 2, pieces, buf + [pairs[i], pairs[i + 1]], top)
  {
    var nb := buf + [pairs[i], pairs[i + 1]];
    assert pairs[..i + 2] == pairs[..i] + [pairs[i], pairs[i + 1]];
    forall t | 0 <= t < |nb| / 2 ensures nb[2 * t + 1] >= topLimit - Step * (|pieces| + 1) as real {
      if 2 * t + 1 < |buf| { assert nb[2 * t + 1] == buf[2 * t + 1]; }
    }
  }

  /**
    BreakVertically: an odd-length array fails when its last value is read. Otherwise the series,
    laid out again, is the pieces followed by a dropped tail; the tail is the open buffer at the end
    when it holds fewer than two points. Piece k (which may be empty) holds only values at or above
    topLimit - 4(k+1), and every piece except a kept last one was cut at a value below that floor.
    An empty series gives no pieces.
  */
  method BreakVertically(pairs: seq<real>, topLimit: real) returns (r: Result<seq<seq<real>>, Error>, ghost dropped: seq<real>)
    ensures r.Failure? <==> |pairs| % 2 == 1
    ensures r.Failure? ==> r.error == IndexOutOfRange
    ensures r.Success? ==> Concat(r.value) + dropped == pairs
    ensures r.Success? ==> |dropped| < 4 && |dropped| % 2 == 0 && InStripe(dropped, topLimit, |r.value|)
    ensures r.Success? ==> forall k :: 0 <= k < |r.value| ==> |r.value[k]| % 2 == 0 && InStripe(r.value[k], topLimit, k)
    ensures r.Success? ==> forall k :: 0 <= k < |r.value| && (k < |r.value| - 1 || dropped != []) ==> CutBelow(pairs, r.value, topLimit, k)
    ensures r.Success? && dropped == [] && pairs != [] ==> |r.value| >= 1 && |r.value[|r.value| - 1]| >= 4
    ensures pairs == [] ==> r == Success([]) && dropped == []
  {
    if |pairs| % 2 == 1 {
      return Failure(IndexOutOfRange), [];
    }
    var result: seq<seq<real>> := [];
    var buf: seq<real> := [];
    var currentTop := topLimit;
    var i := 0;
    while i < |pairs|
      invariant Cutting(pairs, topLimit, i, result, buf, currentTop)
      invariant i > 0 ==> |buf| >= 2
      invariant pairs == [] ==> result == [] && buf == []
      decreases |pairs| - i
    {
      var km, val := pairs[i], pairs[i + 1];
      while val < currentTop - Step
        invariant Cutting(pairs, topLimit, i, result, buf, currentTop)
        decreases ((currentTop - val) / Step).Floor
      {
        CutStep(pairs, topLimit, i, result, buf, currentTop);
        result := result + [buf];
        buf := [];
        currentTop := currentTop - Step;
      }
      AppendPairStep(pairs, topLimit, i, result, buf, currentTop);
      buf := buf + [km, val];
      i := i + 2;
    }
    assert pairs[..i] == pairs;
    if |buf| >= 4 {
      var last := buf;
      AppendKeepsCuts(pairs, topLimit, result, last);
      result := result + [last];
      dropped := [];
    } else {
      dropped := buf;
    }
    r := Success(result);
  }

  /** Adding a piece does not change the cuts of the pieces before it. */
  lemma AppendKeepsCut(pairs: seq<real>, topLimit: real, pieces: seq<seq<real>>, last: seq<real>, k: nat)
    requires k < |pieces|
    ensures CutBelow(pairs, pieces + [last], topLimit, k) == CutBelow(pairs, pieces, topLimit, k)
  {
    assert (pieces + [last])[..k + 1] == pieces[..k + 1];
  }

  /** Adding the final buffer keeps what held of the cut pieces. */
  lemma AppendKeepsCuts(pairs: seq<real>, topLimit: real, pieces: seq<seq<real>>, last: seq<real>)
    requires forall k :: 0 <= k < |pieces| ==> CutBelow(pairs, pieces, topLimit, k)
    ensures Concat(pieces + [last]) == Concat(pieces) + last
    ensures forall k :: 0 <= k < |pieces| ==> CutBelow(pairs, pieces + [last], topLimit, k)
  {
    ConcatAppend(pieces, last);
    forall k | 0 <= k < |pieces| ensures CutBelow(pairs, pieces + [last], topLimit, k) {
      AppendKeepsCut(pairs, topLimit, pieces, last, k);
    }
  }

  /** With no value 4 m below the top, the first piece is not cut. */
  lemma FirstPieceNotCut(pairs: seq<real>, topLimit: real, pieces: seq<seq<real>>)
    requires |pieces| >= 1 && |pieces[0]| % 2 == 0
    requires forall t :: 0 <= t < |pairs| / 2 ==> pairs[2 * t + 1] >= topLimit - Step
    ensures !CutBelow(pairs, pieces, topLimit, 0)
  {
    assert pieces[..1] == [] + [pieces[0]];
    ConcatAppend([], pieces[0]);
    var c := |Concat(pieces[..1])|;
    assert c == |pieces[0]|;
    if c + 1 < |pairs| {
      assert pairs[2 * (c / 2) + 1] >= topLimit - Step;
    }
  }

  /** A series that never drops 4 m below the top stays in one piece, kept when it has two points. */
  lemma NoDropOnePiece(pairs: seq<real>, topLimit: real, pieces: seq<seq<real>>, dropped: seq<real>)
    requires Concat(pieces) + dropped == pairs
    requires forall k :: 0 <= k < |pieces| && (k < |pieces| - 1 || dropped != []) ==> CutBelow(pairs, pieces, topLimit, k)
    requires forall t :: 0 <= t < |pairs| / 2 ==> pairs[2 * t + 1] >= topLimit - Step
    requires forall k :: 0 <= k < |pieces| ==> |pieces[k]| % 2 == 0
    ensures |pieces| <= 1
    ensures |pieces| == 1 ==> dropped == [] && pieces[0] == pairs
  {
    if |pieces| >= 1 {
      FirstPieceNotCut(pairs, topLimit, pieces);
    }
    if |pieces| == 1 {
      assert pieces == [] + [pieces[0]];
      ConcatAppend([], pieces[0]);
    }
  }
}
