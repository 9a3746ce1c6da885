/**
  CadProfileTransformer and its options: (distance, elevation) in a band is mapped to drawing
  coordinates. x grows with the distance and is shifted by a panel offset per band; y is measured
  down from the grid's top row by the band's top level.
*/
module CadTransform {
  import opened Wrappers
  import opened Domain
  import opened Geometry

  /** CadProfileTransformOptions: five settable numbers, all 0 on a default-constructed object. */
  datatype TransformOptions = TransformOptions(
    originX: real,
    gridTopY: real,
    perKm: real,          // CadUnitsPerKm
    perMeter: real,       // CadUnitsPerMeter
    panelSpacingX: real)  // BandPanelSpacingX

  const DefaultTransformOptions := TransformOptions(0.0, 0.0, 0.0, 0.0, 0.0)

  /**
    Validate: the horizontal scale is checked first, then the vertical one; the origin, the grid
    top and the panel spacing are not constrained.
  */
  function ValidateTransformOptions(o: TransformOptions): (r: Outcome<Error>)
    ensures r.Pass? <==> o.perKm > 0.0 && o.perMeter > 0.0
    ensures o.perKm <= 0.0 ==> r == Fail(ArgumentOutOfRange("CadUnitsPerKm"))
    ensures o.perKm > 0.0 && o.perMeter <= 0.0 ==> r == Fail(ArgumentOutOfRange("CadUnitsPerMeter"))
  {
    if o.perKm <= 0.0 then Fail(ArgumentOutOfRange("CadUnitsPerKm"))
    else if o.perMeter <= 0.0 then Fail(ArgumentOutOfRange("CadUnitsPerMeter"))
    else Pass
  }

  /** A default-constructed options object is rejected, on its horizontal scale. */
  lemma DefaultTransformOptionsRejected()
    ensures ValidateTransformOptions(DefaultTransformOptions) == Fail(ArgumentOutOfRange("CadUnitsPerKm"))
  {
  }

  /** The transformer: a band set and options that passed validation. */
  datatype Transformer = Transformer(bands: ProfileBandSet, opt: TransformOptions)
  {
    /** The panel offset applies to positive band indices only; the index is not clamped here. */
    function ToCadX(km: real, bandIndex: int): real {
      var panelOffset := if bandIndex > 0 then bandIndex as real * opt.panelSpacingX else 0.0;
      opt.originX + panelOffset + km * opt.perKm
    }

    /**
      ToCadY: the band index is clamped into the band set, then the elevation is placed below the
      grid's top row by its depth under the band's top level. A band set without bands clamps to
      index -1 and the read of TopLevels fails.
    */
    function ToCadY(elevation: real, bandIndex: int): (r: Result<real, Error>)
      ensures r.Failure? <==> bands.BandCount() == 0
      ensures r.Failure? ==> r.error == IndexOutOfRange
      ensures r.Success? ==>
        var top := bands.topLevels[ClampBand(bandIndex, bands.BandCount())] as real;
        r.value - opt.gridTopY == (elevation - top) * opt.perMeter
    {
      var b := ClampBand(bandIndex, bands.BandCount());
      if b < 0 then Failure(IndexOutOfRange)
      else Success(opt.gridTopY - (bands.topLevels[b] as real - elevation) * opt.perMeter)
    }

    /** ToCadPoint: the x and y of the point and a zero z. */
    function ToCadPoint(km: real, elevation: real, bandIndex: int): (r: Result<seq<real>, Error>)
      ensures r.Failure? <==> bands.BandCount() == 0
      ensures r.Success? ==> |r.value| == 3 && r.value[0] == ToCadX(km, bandIndex)
      ensures r.Success? ==> ToCadY(elevation, bandIndex) == Success(r.value[1]) && r.value[2] == 0.0
    {
      var y := ToCadY(elevation, bandIndex);
      if y.Failure? then Failure(y.error)
      else Success([ToCadX(km, bandIndex), y.value, 0.0])
    }
  }

  /**
    The clamp of ToCadY: negative indices become 0, indices at or past the band count become the
    last band. With no bands the result is -1.
  */
  function ClampBand(bandIndex: int, count: nat): (b: int)
    ensures count >= 1 ==> 0 <= b < count
    ensures count == 0 ==> b == -1
    ensures 0 <= bandIndex < count ==> b == bandIndex
    ensures bandIndex < 0 && count >= 1 ==> b == 0
    ensures bandIndex >= count ==> b == count - 1
  {
    var b := if bandIndex < 0 then 0 else bandIndex;
    if b >= count then count - 1 else b
  }

  /** The constructor validates the options and stores the band set and the options as given. */
  function NewTransformer(bands: ProfileBandSet, opt: TransformOptions): (r: Result<Transformer, Error>)
    ensures r.Success? <==> ValidateTransformOptions(opt).Pass?
    ensures r.Failure? ==> r.error == ValidateTransformOptions(opt).error
    ensures r.Success? ==> r.value.bands == bands && r.value.opt == opt
  {
    var v := ValidateTransformOptions(opt);
    if v.Fail? then Failure(v.error) else Success(Transformer(bands, opt))
  }

  /** The top level of every band is drawn on the grid's top row. */
  lemma BandTopOnGridTop(t: Transformer, b: nat)
    requires b < t.bands.BandCount()
    ensures t.ToCadY(t.bands.topLevels[b] as real, b) == Success(t.opt.gridTopY)
  {
  }

  /** With a valid horizontal scale x strictly increases with the distance, in every band. */
  lemma ToCadXIncreasing(t: Transformer, km1: real, km2: real, bandIndex: int)
    requires ValidateTransformOptions(t.opt).Pass?
    requires km1 < km2
    ensures t.ToCadX(km1, bandIndex) < t.ToCadX(km2, bandIndex)
  {
    assert (km2 - km1) * t.opt.perKm > 0.0;
  }

  /** With a valid vertical scale y strictly increases with the elevation, in every band. */
  lemma ToCadYIncreasing(t: Transformer, e1: real, e2: real, bandIndex: int)
    requires ValidateTransformOptions(t.opt).Pass? && t.bands.BandCount() >= 1
    requires e1 < e2
    ensures t.ToCadY(e1, bandIndex).value < t.ToCadY(e2, bandIndex).value
  {
    var top := t.bands.topLevels[ClampBand(bandIndex, t.bands.BandCount())] as real;
    var p := t.opt.perMeter;
    var y1, y2 := t.ToCadY(e1, bandIndex), t.ToCadY(e2, bandIndex);
    assert y1.Success? && y2.Success?;
    assert y1.value == t.opt.gridTopY - (top - e1) * p;
    assert y2.value == t.opt.gridTopY - (top - e2) * p;
    ScaledOrder(top - e2, top - e1, p);
  }

  /** ToCadY treats an index below 0 as band 0 and an index at or past the count as the last band. */
  lemma ToCadYClamps(t: Transformer, e: real, bandIndex: int)
    requires t.bands.BandCount() >= 1
    ensures bandIndex < 0 ==> t.ToCadY(e, bandIndex) == t.ToCadY(e, 0)
    ensures bandIndex >= t.bands.BandCount() ==> t.ToCadY(e, bandIndex) == t.ToCadY(e, t.bands.BandCount() - 1)
  {
    var n := t.bands.BandCount();
    if bandIndex < 0 {
      ToCadYSameClamp(t, e, bandIndex, 0);
    }
    if bandIndex >= n {
      ToCadYSameClamp(t, e, bandIndex, n - 1);
    }
  }

  /** ToCadY depends on the band index only through the clamped index. */
  lemma ToCadYSameClamp(t: Transformer, e: real, b1: int, b2: int)
    requires ClampBand(b1, t.bands.BandCount()) == ClampBand(b2, t.bands.BandCount())
    ensures t.ToCadY(e, b1) == t.ToCadY(e, b2)
  {
    var c := ClampBand(b1, t.bands.BandCount());
    if c >= 0 {
      var v := t.opt.gridTopY - (t.bands.topLevels[c] as real - e) * t.opt.perMeter;
      assert t.ToCadY(e, b1).Success?;
      assert t.ToCadY(e, b1).value == v;
      assert t.ToCadY(e, b2).value == v;
    }
  }

  /**
    ToCadX does not clamp: an index at or below 0 gets no offset, any positive index (also one
    past the last band) gets index times the panel spacing.
  */
  lemma ToCadXUnclamped(t: Transformer, km: real, bandIndex: int)
    ensures bandIndex <= 0 ==> t.ToCadX(km, bandIndex) == t.opt.originX + km * t.opt.perKm
    ensures bandIndex > 0 ==> t.ToCadX(km, bandIndex) - t.ToCadX(km, 0) == bandIndex as real * t.opt.panelSpacingX
  {
  }

  /** With no panel spacing x does not depend on the band. */
  lemma ZeroSpacingBandFree(t: Transformer, km: real, b1: int, b2: int)
    requires t.opt.panelSpacingX == 0.0
    ensures t.ToCadX(km, b1) == t.ToCadX(km, b2)
  {
  }
}
