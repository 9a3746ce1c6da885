/**
  ProfileEquipmentBuilder: merges the equipment lists into one item list, grouped as hydrants,
  line splits, BKVs, air valves and drains. Air valves come from the pipe maxima and a manual list,
  drains from the pipe minima and a manual list; only positive distances enter those two lists, and
  an air valve within the conflict tolerance of any drain is removed (drains win).

  A null list or a null tuple is None.
*/
module EquipmentBuilder {
  import opened Wrappers
  import opened Domain

  /** The default VantuzTahliyeConflictKmTolerance. */
  const DefaultConflictTolerance: real := 1.0

  function Abs(x: real): real {
    if x < 0.0 then -x else x
  }

  /** The characters char.IsWhiteSpace accepts: the ASCII controls 9-13, space, and the Unicode separators. */
  predicate IsSpace(c: char) {
    c == ' ' || c == '\t' || c == '\n' || c == '\r' || c == '\U{000B}' || c == '\U{000C}'
    || c == '\U{0085}' || c == '\U{00A0}' || c == '\U{1680}' || ('\U{2000}' <= c <= '\U{200A}')
    || c == '\U{2028}' || c == '\U{2029}' || c == '\U{202F}' || c == '\U{205F}' || c == '\U{3000}'
  }

  /** string.IsNullOrWhiteSpace. */
  predicate IsNullOrWhiteSpace(s: Option<string>) {
    s.None? || forall i :: 0 <= i < |s.value| ==> IsSpace(s.value[i])
  }

  /** The hydrant items of a hydrant list: one per non-null tuple, in order, distances unfiltered. */
  function HydrantsOf(hs: seq<Option<(real, int)>>): (r: seq<ProfileEquipmentItem>)
    ensures forall k :: 0 <= k < |r| ==> r[k].kind == Hydrant && CarriesOnlyOwnFields(r[k])
    ensures |r| <= |hs|
  {
    if hs == [] then []
    else HydrantsOf(hs[..|hs| - 1]) + match hs[|hs| - 1] {
      case None => []
      case Some(t) => [HydrantItem(t.0, t.1)]
    }
  }

  /** The line split items: one per non-null tuple whose label is not blank. */
  function JunctionsOf(js: seq<Option<(real, Option<string>)>>): (r: seq<ProfileEquipmentItem>)
    ensures forall k :: 0 <= k < |r| ==> r[k].kind == HatAyrimi && CarriesOnlyOwnFields(r[k])
    ensures |r| <= |js|
  {
    if js == [] then []
    else JunctionsOf(js[..|js| - 1]) + match js[|js| - 1] {
      case None => []
      case Some(t) => if IsNullOrWhiteSpace(t.1) then [] else [HatAyrimiItem(t.0, t.1.value)]
    }
  }

  /** The BKV items: one per non-null tuple, with its optional static water level. */
  function BkvsOf(bs: seq<Option<(real, Option<real>)>>): (r: seq<ProfileEquipmentItem>)
    ensures forall k :: 0 <= k < |r| ==> r[k].kind == Bkv && CarriesOnlyOwnFields(r[k])
    ensures |r| <= |bs|
  {
    if bs == [] then []
    else BkvsOf(bs[..|bs| - 1]) + match bs[|bs| - 1] {
      case None => []
      case Some(t) => [BkvItem(t.0, t.1)]
    }
  }

  /** The positive distances of a list, in order; a null list gives none. */
  function Positives(src: seq<real>): (r: seq<real>)
    ensures |r| <= |src|
    ensures forall x :: x in r <==> x in src && x > 0.0
  {
    if src == [] then []
    else Positives(src[..|src| - 1]) + (if src[|src| - 1] > 0.0 then [src[|src| - 1]] else [])
  }

  function PositivesOf(src: Option<seq<real>>): seq<real> {
    if src.None? then [] else Positives(src.value)
  }

  /** AddAll: appends the positive distances of src to target, in order. */
  method AddAll(target: seq<real>, src: Option<seq<real>>) returns (r: seq<real>)
    ensures r == target + PositivesOf(src)
    ensures r[..|target|] == target
    ensures forall x :: x in r[|target|..] <==> src.Some? && x in src.value && x > 0.0
  {
    r := target;
    if src.None? {
      return;
    }
    var s := src.value;
    var i := 0;
    while i < |s|
      invariant 0 <= i <= |s|
      invariant r == target + Positives(s[..i])
    {
      assert s[..i + 1][..i] == s[..i];
      if s[i] > 0.0 {
        r := r + [s[i]];
      }
      i := i + 1;
    }
    assert s[..i] == s;
    assert r[|target|..] == Positives(s);
  }

  /** Some drain lies strictly within the tolerance of x. */
  predicate NearDrain(x: real, drains: seq<real>, tol: real) {
    exists j :: 0 <= j < |drains| && Abs(x - drains[j]) < tol
  }

  /** The air valves that have no drain strictly within the tolerance, in their original order. */
  function KeepClear(valves: seq<real>, drains: seq<real>, tol: real): seq<real> {
    if valves == [] then []
    else (if NearDrain(valves[0], drains, tol) then [] else [valves[0]]) + KeepClear(valves[1..], drains, tol)
  }

  /**
    RemoveConflictingVantuz: with either list empty nothing changes; otherwise the air valves are
    visited from the back and each one with a drain strictly within the tolerance is removed.
  */
  method RemoveConflictingVantuz(vantuz: seq<real>, tahliye: seq<real>, tol: real) returns (r: seq<real>)
    ensures r == KeepClear(vantuz, tahliye, tol)
  {
    r := vantuz;
    if |vantuz| == 0 || |tahliye| == 0 {
      KeepClearNoDrains(vantuz, tahliye, tol);
      return;
    }
    var i := |vantuz| - 1;
    while i >= 0
      invariant -1 <= i < |vantuz|
      invariant r == vantuz[..i + 1] + KeepClear(vantuz[i + 1..], tahliye, tol)
      decreases i
    {
      var v := r[i];
      assert v == vantuz[i];
      assert vantuz[i..][1..] == vantuz[i + 1..];
      var j := 0;
      var removed := false;
      while j < |tahliye|
        invariant 0 <= j <= |tahliye|
        invariant forall k :: 0 <= k < j ==> Abs(v - tahliye[k]) >= tol
      {
        if Abs(v - tahliye[j]) < tol {
          removed := true;
          break;
        }
        j := j + 1;
      }
      if removed {
        r := r[..i] + r[i + 1..];
        assert vantuz[..i + 1][..i] == vantuz[..i];
      } else {
        assert vantuz[..i + 1] == vantuz[..i] + [v];
      }
      i := i - 1;
    }
    assert vantuz[0..] == vantuz;
  }

  /** Without drains (or without valves) every valve is kept. */
  lemma {:induction false} KeepClearNoDrains(valves: seq<real>, drains: seq<real>, tol: real)
    requires |valves| == 0 || |drains| == 0
    ensures KeepClear(valves, drains, tol) == valves
  {
    if valves != [] {
      KeepClearNoDrains(valves[1..], drains, tol);
    }
  }

  /** An air valve survives exactly when it was listed and no drain is strictly within the tolerance. */
  lemma {:induction false} KeepClearMembers(valves: seq<real>, drains: seq<real>, tol: real, x: real)
    ensures x in KeepClear(valves, drains, tol) <==> x in valves && !NearDrain(x, drains, tol)
  {
    if valves != [] {
      KeepClearMembers(valves[1..], drains, tol, x);
      assert valves == [valves[0]] + valves[1..];
    }
  }

  /** After the removal no air valve lies strictly within the tolerance of any drain. */
  lemma NoConflictRemains(valves: seq<real>, drains: seq<real>, tol: real)
    ensures forall x, j :: x in KeepClear(valves, drains, tol) && 0 <= j < |drains| ==> Abs(x - drains[j]) >= tol
  {
    forall x | x in KeepClear(valves, drains, tol) ensures !NearDrain(x, drains, tol) {
      KeepClearMembers(valves, drains, tol, x);
    }
  }

  /** The removal works valve by valve, so clear valves keep their relative order. */
  lemma {:induction false} KeepClearSplits(v: seq<real>, w: seq<real>, drains: seq<real>, tol: real)
    ensures KeepClear(v + w, drains, tol) == KeepClear(v, drains, tol) + KeepClear(w, drains, tol)
  {
    if v == [] {
      assert v + w == w;
    } else {
      assert (v + w)[1..] == v[1..] + w;
      KeepClearSplits(v[1..], w, drains, tol);
    }
  }

  /** Valves with no drain anywhere near all survive, in their order. */
  lemma {:induction false} ClearValvesSurvive(valves: seq<real>, drains: seq<real>, tol: real)
    requires forall i :: 0 <= i < |valves| ==> !NearDrain(valves[i], drains, tol)
    ensures KeepClear(valves, drains, tol) == valves
  {
    if valves != [] {
      ClearValvesSurvive(valves[1..], drains, tol);
    }
  }

  function ValveItems(kms: seq<real>): (r: seq<ProfileEquipmentItem>)
    ensures |r| == |kms| && forall k :: 0 <= k < |r| ==> r[k] == VantuzItem(kms[k])
  {
    if kms == [] then [] else ValveItems(kms[..|kms| - 1]) + [VantuzItem(kms[|kms| - 1])]
  }

  function DrainItems(kms: seq<real>): (r: seq<ProfileEquipmentItem>)
    ensures |r| == |kms| && forall k :: 0 <= k < |r| ==> r[k] == TahliyeItem(kms[k])
  {
    if kms == [] then [] else DrainItems(kms[..|kms| - 1]) + [TahliyeItem(kms[|kms| - 1])]
  }

  /** The merged air valve list: pipe maxima first, then the manual list. */
  function ValveKms(vantuzFromPipe: Option<seq<real>>, manualVantuz: Option<seq<real>>): seq<real> {
    PositivesOf(vantuzFromPipe) + PositivesOf(manualVantuz)
  }

  /** The merged drain list: pipe minima first, then the manual list. */
  function DrainKms(tahliyeFromPipe: Option<seq<real>>, manualTahliye: Option<seq<real>>): seq<real> {
    PositivesOf(tahliyeFromPipe) + PositivesOf(manualTahliye)
  }

  /** The item list Build returns, group by group. */
  function EquipmentList(
    hydrants: Option<seq<Option<(real, int)>>>,
    junctions: Option<seq<Option<(real, Option<string>)>>>,
    bkvs: Option<seq<Option<(real, Option<real>)>>>,
    vantuzFromPipe: Option<seq<real>>, tahliyeFromPipe: Option<seq<real>>,
    manualVantuz: Option<seq<real>>, manualTahliye: Option<seq<real>>,
    tol: real): seq<ProfileEquipmentItem>
  {
    (if hydrants.None? then [] else HydrantsOf(hydrants.value))
    + (if junctions.None? then [] else JunctionsOf(junctions.value))
    + (if bkvs.None? then [] else BkvsOf(bkvs.value))
    + ValveItems(KeepClear(ValveKms(vantuzFromPipe, manualVantuz), DrainKms(tahliyeFromPipe, manualTahliye), tol))
    + DrainItems(DrainKms(tahliyeFromPipe, manualTahliye))
  }

  /** The hydrant loop of Build. */
  method AppendHydrants(items: seq<ProfileEquipmentItem>, hydrants: Option<seq<Option<(real, int)>>>)
    returns (r: seq<ProfileEquipmentItem>)
    ensures r == items + (if hydrants.None? then [] else HydrantsOf(hydrants.value))
  {
    r := items;
    if hydrants.Some? {
      var hs := hydrants.value;
      var i := 0;
      while i < |hs|
        invariant 0 <= i <= |hs| && r == items + HydrantsOf(hs[..i])
      {
        assert hs[..i + 1][..i] == hs[..i];
        if hs[i].Some? {
          r := r + [HydrantItem(hs[i].value.0, hs[i].value.1)];
        }
        i := i + 1;
      }
      assert hs[..i] == hs;
    }
  }

  /** The line split loop of Build. */
  method AppendJunctions(items: seq<ProfileEquipmentItem>, junctions: Option<seq<Option<(real, Option<string>)>>>)
    returns (r: seq<ProfileEquipmentItem>)
    ensures r == items + (if junctions.None? then [] else JunctionsOf(junctions.value))
  {
    r := items;
    if junctions.Some? {
      var js := junctions.value;
      var i := 0;
      while i < |js|
        invariant 0 <= i <= |js| && r == items + JunctionsOf(js[..i])
      {
        assert js[..i + 1][..i] == js[..i];
        if js[i].Some? && !IsNullOrWhiteSpace(js[i].value.1) {
          r := r + [HatAyrimiItem(js[i].value.0, js[i].value.1.value)];
        }
        i := i + 1;
      }
      assert js[..i] == js;
    }
  }

  /** The BKV loop of Build. */
  method AppendBkvs(items: seq<ProfileEquipmentItem>, bkvs: Option<seq<Option<(real, Option<real>)>>>)
    returns (r: seq<ProfileEquipmentItem>)
    ensures r == items + (if bkvs.None? then [] else BkvsOf(bkvs.value))
  {
    r := items;
    if bkvs.Some? {
      var bs := bkvs.value;
      var i := 0;
      while i < |bs|
        invariant 0 <= i <= |bs| && r == items + BkvsOf(bs[..i])
      {
        assert bs[..i + 1][..i] == bs[..i];
        if bs[i].Some? {
          r := r + [BkvItem(bs[i].value.0, bs[i].value.1)];
        }
        i := i + 1;
      }
      assert bs[..i] == bs;
    }
  }

  /** The two final loops of Build: an air valve item per kept valve, then a drain item per drain. */
  method AppendValvesAndDrains(items: seq<ProfileEquipmentItem>, vantuz: seq<real>, tahliye: seq<real>)
    returns (r: seq<ProfileEquipmentItem>)
    ensures r == items + ValveItems(vantuz) + DrainItems(tahliye)
  {
    r := items;
    var i := 0;
    while i < |vantuz|
      invariant 0 <= i <= |vantuz| && r == items + ValveItems(vantuz[..i])
    {
      assert vantuz[..i + 1][..i] == vantuz[..i];
      r := r + [VantuzItem(vantuz[i])];
      i := i + 1;
    }
    assert vantuz[..i] == vantuz;
    ghost var afterValves := r;
    i := 0;
    while i < |tahliye|
      invariant 0 <= i <= |tahliye| && r == afterValves + DrainItems(tahliye[..i])
    {
      assert tahliye[..i + 1][..i] == tahliye[..i];
      r := r + [TahliyeItem(tahliye[i])];
      i := i + 1;
    }
    assert tahliye[..i] == tahliye;
  }

  /** The air valve and drain lists of Build: extrema first, then manual; conflicting valves removed. */
  method MergeValvesAndDrains(vantuzFromPipe: Option<seq<real>>, tahliyeFromPipe: Option<seq<real>>,
                              manualVantuz: Option<seq<real>>, manualTahliye: Option<seq<real>>, tol: real)
    returns (vantuz: seq<real>, tahliye: seq<real>)
    ensures vantuz == KeepClear(ValveKms(vantuzFromPipe, manualVantuz), DrainKms(tahliyeFromPipe, manualTahliye), tol)
    ensures tahliye == DrainKms(tahliyeFromPipe, manualTahliye)
  {
    vantuz := AddAll([], vantuzFromPipe);
    tahliye := AddAll([], tahliyeFromPipe);
    vantuz := AddAll(vantuz, manualVantuz);
    tahliye := AddAll(tahliye, manualTahliye);
    vantuz := RemoveConflictingVantuz(vantuz, tahliye, tol);
  }

  /**
    Build: hydrants, line splits and BKVs are appended as given; the air valve and drain lists are
    filled (extrema first, then manual), conflicting air valves are removed, and both are appended.
  */
  method Build(
    hydrants: Option<seq<Option<(real, int)>>>,
    junctions: Option<seq<Option<(real, Option<string>)>>>,
    bkvs: Option<seq<Option<(real, Option<real>)>>>,
    vantuzFromPipe: Option<seq<real>>, tahliyeFromPipe: Option<seq<real>>,
    manualVantuz: Option<seq<real>>, manualTahliye: Option<seq<real>>,
    tol: real) returns (items: seq<ProfileEquipmentItem>)
    ensures items == EquipmentList(hydrants, junctions, bkvs, vantuzFromPipe, tahliyeFromPipe, manualVantuz, manualTahliye, tol)
  {
    ghost var h := if hydrants.None? then [] else HydrantsOf(hydrants.value);
    ghost var a := if junctions.None? then [] else JunctionsOf(junctions.value);
    ghost var b := if bkvs.None? then [] else BkvsOf(bkvs.value);
    items := AppendHydrants([], hydrants);
    assert items == h;
    items := AppendJunctions(items, junctions);
    items := AppendBkvs(items, bkvs);
    ghost var groups := items;
    assert groups == h + a + b;
    var vantuz, tahliye := MergeValvesAndDrains(vantuzFromPipe, tahliyeFromPipe, manualVantuz, manualTahliye, tol);
    items := AppendValvesAndDrains(items, vantuz, tahliye);
    assert items == groups + ValveItems(vantuz) + DrainItems(tahliye);
    assert EquipmentList(hydrants, junctions, bkvs, vantuzFromPipe, tahliyeFromPipe, manualVantuz, manualTahliye, tol)
      == h + a + b + ValveItems(vantuz) + DrainItems(tahliye);
  }

  /** The position of each equipment type in the output. */
  function KindRank(k: ProfileEquipmentType): nat {
    match k
    case Hydrant => 0
    case HatAyrimi => 1
    case Bkv => 2
    case Vantuz => 3
    case Tahliye => 4
  }

  predicate AllRank(s: seq<ProfileEquipmentItem>, rank: nat) {
    forall i :: 0 <= i < |s| ==> KindRank(s[i].kind) == rank && CarriesOnlyOwnFields(s[i])
  }

  lemma GroupedConcat(h: seq<ProfileEquipmentItem>, a: seq<ProfileEquipmentItem>, b: seq<ProfileEquipmentItem>,
                      v: seq<ProfileEquipmentItem>, t: seq<ProfileEquipmentItem>, items: seq<ProfileEquipmentItem>)
    requires AllRank(h, 0) && AllRank(a, 1) && AllRank(b, 2) && AllRank(v, 3) && AllRank(t, 4)
    requires items == h + a + b + v + t
    ensures forall i, j :: 0 <= i < j < |items| ==> KindRank(items[i].kind) <= KindRank(items[j].kind)
    ensures forall i :: 0 <= i < |items| ==> CarriesOnlyOwnFields(items[i])
  {
    forall i | 0 <= i < |items|
      ensures KindRank(items[i].kind) == (if i < |h| then 0 else if i < |h| + |a| then 1
        else if i < |h| + |a| + |b| then 2 else if i < |h| + |a| + |b| + |v| then 3 else 4)
      ensures CarriesOnlyOwnFields(items[i])
    {
      if i < |h| { assert items[i] == h[i]; }
      else if i < |h| + |a| { assert items[i] == a[i - |h|]; }
      else if i < |h| + |a| + |b| { assert items[i] == b[i - |h| - |a|]; }
      else if i < |h| + |a| + |b| + |v| { assert items[i] == v[i - |h| - |a| - |b|]; }
      else { assert items[i] == t[i - |h| - |a| - |b| - |v|]; }
    }
  }

  /**
    The output is grouped as hydrants, line splits, BKVs, air valves, drains; and every item carries
    only the fields of its own type.
  */
  lemma OutputGrouped(
    hydrants: Option<seq<Option<(real, int)>>>,
    junctions: Option<seq<Option<(real, Option<string>)>>>,
    bkvs: Option<seq<Option<(real, Option<real>)>>>,
    vantuzFromPipe: Option<seq<real>>, tahliyeFromPipe: Option<seq<real>>,
    manualVantuz: Option<seq<real>>, manualTahliye: Option<seq<real>>,
    tol: real)
    ensures var items := EquipmentList(hydrants, junctions, bkvs, vantuzFromPipe, tahliyeFromPipe, manualVantuz, manualTahliye, tol);
      forall i, j :: 0 <= i < j < |items| ==> KindRank(items[i].kind) <= KindRank(items[j].kind)
    ensures var items := EquipmentList(hydrants, junctions, bkvs, vantuzFromPipe, tahliyeFromPipe, manualVantuz, manualTahliye, tol);
      forall i :: 0 <= i < |items| ==> CarriesOnlyOwnFields(items[i])
  {
    var h := if hydrants.None? then [] else HydrantsOf(hydrants.value);
    var a := if junctions.None? then [] else JunctionsOf(junctions.value);
    var b := if bkvs.None? then [] else BkvsOf(bkvs.value);
    var v := ValveItems(KeepClear(ValveKms(vantuzFromPipe, manualVantuz), DrainKms(tahliyeFromPipe, manualTahliye), tol));
    var t := DrainItems(DrainKms(tahliyeFromPipe, manualTahliye));
    var items := EquipmentList(hydrants, junctions, bkvs, vantuzFromPipe, tahliyeFromPipe, manualVantuz, manualTahliye, tol);
    assert items == h + a + b + v + t;
    assert AllRank(h, 0) && AllRank(a, 1) && AllRank(b, 2);
    assert AllRank(v, 3) by {
      forall k | 0 <= k < |v| ensures KindRank(v[k].kind) == 3 && CarriesOnlyOwnFields(v[k]) {
        assert v[k].kind == Vantuz;
      }
    }
    assert AllRank(t, 4) by {
      forall k | 0 <= k < |t| ensures KindRank(t[k].kind) == 4 && CarriesOnlyOwnFields(t[k]) {
        assert t[k].kind == Tahliye;
      }
    }
    GroupedConcat(h, a, b, v, t, items);
  }

  /** Every admitted drain is in the output, in order, as its last items: drains are never removed. */
  lemma DrainsNeverRemoved(
    hydrants: Option<seq<Option<(real, int)>>>,
    junctions: Option<seq<Option<(real, Option<string>)>>>,
    bkvs: Option<seq<Option<(real, Option<real>)>>>,
    vantuzFromPipe: Option<seq<real>>, tahliyeFromPipe: Option<seq<real>>,
    manualVantuz: Option<seq<real>>, manualTahliye: Option<seq<real>>,
    tol: real)
    ensures var items := EquipmentList(hydrants, junctions, bkvs, vantuzFromPipe, tahliyeFromPipe, manualVantuz, manualTahliye, tol);
      var drains := DrainKms(tahliyeFromPipe, manualTahliye);
      |items| >= |drains| && items[|items| - |drains|..] == DrainItems(drains)
  {
    var items := EquipmentList(hydrants, junctions, bkvs, vantuzFromPipe, tahliyeFromPipe, manualVantuz, manualTahliye, tol);
    var t := DrainItems(DrainKms(tahliyeFromPipe, manualTahliye));
    var front := items[..|items| - |t|];
    assert items == front + t;
  }

  lemma NoValveInFront(h: seq<ProfileEquipmentItem>, a: seq<ProfileEquipmentItem>, b: seq<ProfileEquipmentItem>, x: real)
    requires AllRank(h, 0) && AllRank(a, 1) && AllRank(b, 2)
    ensures VantuzItem(x) !in h + a + b
  {
    forall i | 0 <= i < |h + a + b| ensures (h + a + b)[i].kind != Vantuz {
      if i < |h| { assert (h + a + b)[i] == h[i]; }
      else if i < |h| + |a| { assert (h + a + b)[i] == a[i - |h|]; }
      else { assert (h + a + b)[i] == b[i - |h| - |a|]; }
    }
  }

  lemma ValveItemsMembers(kept: seq<real>, drains: seq<real>, x: real)
    ensures VantuzItem(x) in ValveItems(kept) <==> x in kept
    ensures VantuzItem(x) !in DrainItems(drains)
  {
    if x in kept {
      var k :| 0 <= k < |kept| && kept[k] == x;
      assert ValveItems(kept)[k] == VantuzItem(x);
    }
  }

  lemma InMiddle<T>(front: seq<T>, mid: seq<T>, back: seq<T>, e: T)
    requires e !in front && e !in back
    ensures e in front + mid + back <==> e in mid
  {
  }

  /** An air valve item at x is in the output exactly when x was admitted and no drain is strictly near it. */
  lemma ValveInOutput(
    hydrants: Option<seq<Option<(real, int)>>>,
    junctions: Option<seq<Option<(real, Option<string>)>>>,
    bkvs: Option<seq<Option<(real, Option<real>)>>>,
    vantuzFromPipe: Option<seq<real>>, tahliyeFromPipe: Option<seq<real>>,
    manualVantuz: Option<seq<real>>, manualTahliye: Option<seq<real>>,
    tol: real, x: real)
    ensures var items := EquipmentList(hydrants, junctions, bkvs, vantuzFromPipe, tahliyeFromPipe, manualVantuz, manualTahliye, tol);
      VantuzItem(x) in items <==>
        x in ValveKms(vantuzFromPipe, manualVantuz) && !NearDrain(x, DrainKms(tahliyeFromPipe, manualTahliye), tol)
  {
    var h := if hydrants.None? then [] else HydrantsOf(hydrants.value);
    var a := if junctions.None? then [] else JunctionsOf(junctions.value);
    var b := if bkvs.None? then [] else BkvsOf(bkvs.value);
    var drains := DrainKms(tahliyeFromPipe, manualTahliye);
    var kept := KeepClear(ValveKms(vantuzFromPipe, manualVantuz), drains, tol);
    var v := ValveItems(kept);
    var t := DrainItems(drains);
    var items := h + a + b + v + t;
    assert items == EquipmentList(hydrants, junctions, bkvs, vantuzFromPipe, tahliyeFromPipe, manualVantuz, manualTahliye, tol);
    KeepClearMembers(ValveKms(vantuzFromPipe, manualVantuz), drains, tol, x);
    NoValveInFront(h, a, b, x);
    ValveItemsMembers(kept, drains, x);
    InMiddle(h + a + b, v, t, VantuzItem(x));
  }
}
