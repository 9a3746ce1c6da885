/**
  The domain records of the long-section tool: the band set produced by band generation, the
  per-band polyline and hydraulic pieces, the micro-break marker, the hydraulic build options and
  the equipment items. Each guarded constructor of the code base becomes a function returning a
  Result: the record on success, the exception it throws on failure.
*/
module Domain {
  import opened Wrappers
  import opened Geometry

  /** The exceptions the core raises, without their message text. */
  datatype Error =
    | InvalidPairs(param: string)           // ArgumentException: not [x, y] pairs, or fewer than two
    | ArgumentOutOfRange(param: string)     // ArgumentOutOfRangeException: a Validate method, or a list indexer
    | LevelCountMismatch                    // ArgumentException: TopLevels and BaseLevels differ in length
    | PipeAboveGround(lineName: string, km: real)  // InvalidOperationException from band generation
    | IndexOutOfRange                       // reading TopLevels[0] of a band set without bands

  /**
    A break distance as band generation computes it. With strictly increasing distances the only
    non-finite value its crossing formula can give is minus infinity (a flat segment: the
    reciprocal of a zero slope times a negative level difference).
  */
  datatype BreakKm = Finite(km: real) | NegInfinity

  /** Upper sentinel: breaks at or beyond it are ignored when bands are advanced. */
  const BreakKmSentinel: real := 999999.0

  /** The band set: per band a top and a base level (whole metres) and a break distance. */
  datatype ProfileBandSet = ProfileBandSet(topLevels: seq<int>, baseLevels: seq<int>, breakKms: seq<BreakKm>)
  {
    function BandCount(): nat {
      |topLevels|
    }
  }

  /**
    The ProfileBandSet constructor: top and base level arrays must be equally long; the arrays are
    stored as given and the number of breaks is not checked.
  */
  function NewProfileBandSet(tops: seq<int>, bases: seq<int>, breaks: seq<BreakKm>): (r: Result<ProfileBandSet, Error>)
    ensures r.Success? <==> |tops| == |bases|
    ensures r.Failure? ==> r.error == LevelCountMismatch
    ensures r.Success? ==> r.value.topLevels == tops && r.value.baseLevels == bases && r.value.breakKms == breaks
    ensures r.Success? ==> r.value.BandCount() == |bases|
  {
    if |tops| != |bases| then Failure(LevelCountMismatch)
    else Success(ProfileBandSet(tops, bases, breaks))
  }

  /** The part of a polyline that lies in one band. */
  datatype PolylineBandSegment = PolylineBandSegment(bandIndex: int, pairs: seq<real>)
  {
    function StartKm(): real {
      if |pairs| >= 2 then pairs[0] else 0.0
    }

    function EndKm(): real {
      if |pairs| >= 2 then pairs[|pairs| - 2] else 0.0
    }
  }

  /**
    The ProfilePolylineBandSegment constructor: the pairs must be a pair array of at least two
    points; the band index and the pairs are kept, and the start and end distances are the first and
    last distances of the array.
  */
  function NewPolylineBandSegment(band: int, pairs: seq<real>): (r: Result<PolylineBandSegment, Error>)
    ensures r.Success? <==> IsPairs(pairs)
    ensures r.Failure? ==> r.error == InvalidPairs("kmElevationPairs")
    ensures r.Success? ==> r.value.bandIndex == band && r.value.pairs == pairs
    ensures r.Success? ==> r.value.StartKm() == pairs[0] && r.value.EndKm() == pairs[|pairs| - 2]
  {
    if !IsPairs(pairs) then Failure(InvalidPairs("kmElevationPairs"))
    else Success(PolylineBandSegment(band, pairs))
  }

  /** A segment built on strictly increasing distances starts strictly before it ends. */
  lemma SegmentStartsBeforeEnd(band: int, pairs: seq<real>)
    requires IsPairs(pairs) && StrictlyIncreasingKm(pairs)
    ensures NewPolylineBandSegment(band, pairs).Success?
    ensures NewPolylineBandSegment(band, pairs).value.StartKm() < NewPolylineBandSegment(band, pairs).value.EndKm()
  {
    assert pairs[0] < pairs[|pairs| - 2];
  }

  /** A drawable piece of the hydraulic curve. Only bandTopLevelMeters is set after construction. */
  datatype HydraulicSegment = HydraulicSegment(bandIndex: int, topRefMeters: real, pairs: seq<real>, bandTopLevelMeters: real)
  {
    /** The BandTopLevelMeters setter: the new value replaces the level and nothing else changes. */
    function WithBandTopLevel(level: real): (s: HydraulicSegment)
      ensures s.bandTopLevelMeters == level
      ensures s.bandIndex == bandIndex && s.topRefMeters == topRefMeters && s.pairs == pairs
    {
      this.(bandTopLevelMeters := level)
    }
  }

  /**
    The HydraulicDrawableSegment constructor: the pairs must be a pair array of at least two points;
    band index, reference top and pairs are stored as given, and the band top level is still 0.
  */
  function NewHydraulicSegment(band: int, topRef: real, pairs: seq<real>): (r: Result<HydraulicSegment, Error>)
    ensures r.Success? <==> IsPairs(pairs)
    ensures r.Failure? ==> r.error == InvalidPairs("kmElevationPairs")
    ensures r.Success? ==> r.value.bandIndex == band && r.value.topRefMeters == topRef && r.value.pairs == pairs
    ensures r.Success? ==> r.value.bandTopLevelMeters == 0.0
  {
    if !IsPairs(pairs) then Failure(InvalidPairs("kmElevationPairs"))
    else Success(HydraulicSegment(band, topRef, pairs, 0.0))
  }

  /** A micro-break mark: in a band, at a distance, the reference top drops from one level to another. */
  datatype VerticalBreakMarker = VerticalBreakMarker(bandIndex: int, km: real, fromTopRef: real, toTopRef: real)

  /** How a hydraulic series value is read: as an elevation, or as a head added to the pipe elevation. */
  datatype HydraulicValueMode = AbsoluteElevationMeters | AddToPipeElevationMeters

  datatype HydraulicBuildOptions = HydraulicBuildOptions(stepMeters: real, mode: HydraulicValueMode, valueToMetersFactor: real)

  /** A default-constructed options object. */
  const DefaultHydraulicOptions := HydraulicBuildOptions(4.0, AbsoluteElevationMeters, 1.0)

  /**
    HydraulicBuildOptions.Validate: the step is checked first, then the factor, and the factor must
    be positive in either value mode.
  */
  function ValidateHydraulicOptions(o: HydraulicBuildOptions): (r: Outcome<Error>)
    ensures r.Pass? <==> o.stepMeters > 0.0 && o.valueToMetersFactor > 0.0
    ensures o.stepMeters <= 0.0 ==> r == Fail(ArgumentOutOfRange("VerticalBreakStepMeters"))
    ensures o.stepMeters > 0.0 && o.valueToMetersFactor <= 0.0 ==> r == Fail(ArgumentOutOfRange("ValueToMetersFactor"))
  {
    if o.stepMeters <= 0.0 then Fail(ArgumentOutOfRange("VerticalBreakStepMeters"))
    else if o.valueToMetersFactor <= 0.0 then Fail(ArgumentOutOfRange("ValueToMetersFactor"))
    else Pass
  }

  /** The defaults (a 4 m step, absolute values, factor 1) pass validation. */
  lemma DefaultHydraulicOptionsValid()
    ensures DefaultHydraulicOptions.stepMeters == 4.0 && DefaultHydraulicOptions.mode == AbsoluteElevationMeters
    ensures DefaultHydraulicOptions.valueToMetersFactor == 1.0
    ensures ValidateHydraulicOptions(DefaultHydraulicOptions) == Pass
  {
  }

  datatype ProfileEquipmentType = Hydrant | Bkv | HatAyrimi | Vantuz | Tahliye

  /** A piece of equipment at a distance; the optional fields belong to particular types. */
  datatype ProfileEquipmentItem = ProfileEquipmentItem(
    kind: ProfileEquipmentType,
    km: real,
    outletCount: Option<int>,
    labelText: Option<string>,
    staticWaterLevel: Option<real>)

  /** Only a hydrant carries an outlet count, only a line split a label, only a BKV a static level. */
  predicate CarriesOnlyOwnFields(item: ProfileEquipmentItem) {
    (item.outletCount.Some? ==> item.kind == Hydrant)
    && (item.labelText.Some? ==> item.kind == HatAyrimi)
    && (item.staticWaterLevel.Some? ==> item.kind == Bkv)
  }

  function HydrantItem(km: real, outletCount: int): ProfileEquipmentItem {
    ProfileEquipmentItem(Hydrant, km, Some(outletCount), None, None)
  }

  function BkvItem(km: real, staticWaterLevel: Option<real>): ProfileEquipmentItem {
    ProfileEquipmentItem(Bkv, km, None, None, staticWaterLevel)
  }

  function HatAyrimiItem(km: real, name: string): ProfileEquipmentItem {
    ProfileEquipmentItem(HatAyrimi, km, None, Some(name), None)
  }

  function VantuzItem(km: real): ProfileEquipmentItem {
    ProfileEquipmentItem(Vantuz, km, None, None, None)
  }

  function TahliyeItem(km: real): ProfileEquipmentItem {
    ProfileEquipmentItem(Tahliye, km, None, None, None)
  }

  /**
    The five factories give an item of their own type at the given distance, carrying the value
    passed to them and no field of another type.
  */
  lemma FactoriesCarryOnlyOwnFields(km: real, outlets: int, level: Option<real>, name: string)
    ensures var h := HydrantItem(km, outlets);
      h.kind == Hydrant && h.km == km && h.outletCount == Some(outlets) && CarriesOnlyOwnFields(h)
    ensures var b := BkvItem(km, level);
      b.kind == Bkv && b.km == km && b.staticWaterLevel == level && CarriesOnlyOwnFields(b)
    ensures var a := HatAyrimiItem(km, name);
      a.kind == HatAyrimi && a.km == km && a.labelText == Some(name) && CarriesOnlyOwnFields(a)
    ensures var v := VantuzItem(km);
      v.kind == Vantuz && v.km == km && v.outletCount.None? && v.labelText.None? && v.staticWaterLevel.None?
    ensures var t := TahliyeItem(km);
      t.kind == Tahliye && t.km == km && t.outletCount.None? && t.labelText.None? && t.staticWaterLevel.None?
  {
  }

  /** A break is used for band advancing only when it lies strictly between 0 and the sentinel. */
  predicate IsEffective(b: BreakKm) {
    b.Finite? && 0.0 < b.km < BreakKmSentinel
  }

  /**
    GetEffectiveBreaks (both copies): the break distances strictly between 0 and 999999, in their
    original order. Minus infinity is dropped like any other value at or below 0.
  */
  function EffectiveBreaks(breaks: seq<BreakKm>): (r: seq<real>)
    ensures |r| <= |breaks|
    ensures forall i :: 0 <= i < |r| ==> 0.0 < r[i] < BreakKmSentinel
    ensures forall x :: x in r <==> Finite(x) in breaks && 0.0 < x < BreakKmSentinel
  {
    if breaks == [] then []
    else
      var rest := EffectiveBreaks(breaks[1..]);
      assert breaks == [breaks[0]] + breaks[1..];
      if IsEffective(breaks[0]) then [breaks[0].km] + rest else rest
  }

  /**
    The hydraulic builder's form of the filter (skip x <= 0, skip x >= 999999) and the clip
    service's form (keep 0 < x < 999999) select the same breaks.
  */
  lemma EffectiveBreakFormsAgree(b: BreakKm)
    ensures IsEffective(b) <==> !(b.NegInfinity? || b.km <= 0.0) && !(b.Finite? && b.km >= BreakKmSentinel)
  {
  }

  /** A break set whose breaks are all finite and inside the range passes through unchanged. */
  lemma {:induction false} EffectiveBreaksKeepsInRange(breaks: seq<BreakKm>)
    requires forall i :: 0 <= i < |breaks| ==> IsEffective(breaks[i])
    ensures |EffectiveBreaks(breaks)| == |breaks|
    ensures forall i :: 0 <= i < |breaks| ==> Finite(EffectiveBreaks(breaks)[i]) == breaks[i]
  {
    if breaks != [] {
      EffectiveBreaksKeepsInRange(breaks[1..]);
    }
  }
}
