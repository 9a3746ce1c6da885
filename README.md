# PlanProfilYeni numeric core in Dafny

This project models the arithmetic behind the pipeline long-section drawings of PlanProfilYeni.
The inputs are flat `[km0, elev0, km1, elev1, ...]` arrays: the ground line, the pipe line and a
hydraulic series. From them the program does the following:

- It splits the route into bands, each 13 m high (`ProfileBandService`).
- It cuts polylines at the band break distances (`ProfileClipService`).
- It re-segments the hydraulic curve at band crossings and at 4 m "micro-breaks"
  (`HydraulicProfileBuilder`, and the stand-alone `HydraulicVerticalBreakService`).
- It finds air valve and drain positions at the pipe's strict local maxima and minima, then merges
  them with the manually entered equipment lists (`PipeExtremaDetector`, `ProfileEquipmentBuilder`).
- It maps (distance, elevation, band) to drawing coordinates (`CadProfileTransformer`), and the two
  drawers place items and curves (`CadProfileEquipmentDrawer`, `CadProfileHydraulicDrawer`).

Distances and elevations are Dafny `real`s. Where the program loops and updates local state, the
model is a `method` with loop invariants. Most such methods are proved equal to a specification
function, and the properties are proved about that function as lemmas. The others state the
result's properties directly in their `ensures`: `VerticalBreak.BreakVertically`,
`HydraulicDrawer.FindHydraulicElevationRange`, `ClipService.BuildBandSegments` and
`ClipService.SplitByBands` (through the relation `IsBandSplit`), and `BandService.BuildBands` (through
`CheckShapes`, `PipeNeverAboveGround` and `Crossings`). Pure lookups and record
constructors are functions and datatypes. Thrown exceptions become `Result` failures. A read past
the end of an array is `IndexOutOfRange`. A bad index into a list, and a failed argument check,
are `ArgumentOutOfRange` carrying the parameter's name.

Files and modules:

| file | module | models |
|---|---|---|
| wrappers.dfy | Wrappers | `Option`, `Result`, `Outcome` |
| geometry.dfy | Geometry | points, pair arrays, `InterpolateYAtX` (both copies) |
| domain.dfy | Domain | band set, polyline and hydraulic segments, markers, options, equipment items, `GetEffectiveBreaks` (both copies) |
| band_service.dfy | BandService | `BuildBands`, `BuildBreakKms` |
| clip_service.dfy | ClipService | `SplitByBands`, `ReadPoints`, `InsertBreakpoint`, `BuildBandSegments`, `Add` |
| hydraulic_builder.dfy | HydraulicBuilder | `Build`, `ReadPoints`, `InterpolateY`, `AddSegmentIfValid` |
| vertical_break.dfy | VerticalBreak | `BreakVertically` |
| extrema.dfy | Extrema | `Detect` |
| equipment_builder.dfy | EquipmentBuilder | `Build`, `AddAll`, `RemoveConflictingVantuz` |
| cad_transform.dfy | CadTransform | the transformer and its options |
| equipment_drawer.dfy | EquipmentDrawer | `ResolveBandIndex`, `InterpolatePipeElevation`, the symbol anchor |
| hydraulic_drawer.dfy | HydraulicDrawer | `FindHydraulicElevationRange`, band spans, normalisation |

Behaviour of the code that the model keeps as written:

- Every band, including the closing one, is exactly 13 m high: the closing band is always
  `(top, top - 13)` (`PlanProfilYeni/Services/ProfileBandService.cs:99-102`).
- `BreakKms` is not sorted: the breaks are kept in the order the scan collects them.
- `InterpolateYAtX` returns the LAST elevation both past the end and at an exact interior vertex.
  The comment at `PlanProfilYeni/Services/ProfileBandService.cs:230-231` speaks of returning the
  nearest end point; only a distance at or before the first vertex gets the first elevation.
- The break-distance formulas divide by the segment slope. A flat segment gives minus infinity,
  which is modelled as `Domain.BreakKm.NegInfinity`.
- At a micro-break the closed segment ends at the previous point. The new segment then holds the
  triggering point twice: once as its seed and once as the normal append. The comment at
  `PlanProfilYeni/Services/HydraulicProfileBuilder.cs:121` says the break point belongs to both
  pieces; in the code the closed piece does not contain it.
- The equipment drawer's pipe lookup includes the segment ends. Outside the pipe's distance range
  it returns the last elevation.

## Model

| member | source | states |
|---|---|---|
| Geometry.Max | PlanProfilYeni/Services/ProfileBandService.cs:41 | the result is the larger of the two distances |
| Geometry.Ceil | PlanProfilYeni/Services/ProfileBandService.cs:34 | the least integer at or above the value (Math.Ceiling) |
| Geometry.Floor | PlanProfilYeni/Services/ProfileBandService.cs:35 | the greatest integer at or below the value (Math.Floor) |
| Geometry.LerpBetween | PlanProfilYeni/Services/ProfileBandService.cs:223-226 | the slope-form interpolation hits both segment ends and stays between their elevations |
| Geometry.InterpolateInsideSegment | PlanProfilYeni/Services/ProfileBandService.cs:217-227 | on increasing distances, an x strictly inside segment j gives the straight line through that segment's ends |
| Geometry.InterpolateOutsideSegments | PlanProfilYeni/Services/ProfileBandService.cs:217-233 | when no segment strictly encloses x: the first elevation if x is at or before the first distance, else the last elevation |
| Geometry.InterpolateBeforeStart | PlanProfilYeni/Services/ProfileBandService.cs:232 | at or before the first distance the first elevation is returned |
| Geometry.InterpolateAtVertexFallsThrough | PlanProfilYeni/Services/ProfileBandService.cs:221-233 | an x equal to any vertex distance after the first gives the LAST elevation, not the vertex's own |
| Domain.NewProfileBandSet | PlanProfilYeni/Domain/ProfileBandSet.cs:18-34 | accepted iff top and base arrays have equal length; the arrays are stored as given; BandCount is their length; break count unchecked |
| Domain.NewPolylineBandSegment | PlanProfilYeni/Domain/ProfilePolylineBandSegment.cs:15-26 | accepted iff the pairs are even and hold at least two points; band and pairs stored; StartKm is the first distance, EndKm the last |
| Domain.SegmentStartsBeforeEnd | PlanProfilYeni/Domain/ProfilePolylineBandSegment.cs:15-16 | on increasing distances a segment's start distance is strictly before its end distance |
| Domain.NewHydraulicSegment | PlanProfilYeni/Domain/HydraulicDrawableSegment.cs:17-29 | accepted iff the pairs are even and hold at least two points; band, reference top and pairs stored; BandTopLevelMeters starts at 0 |
| Domain.HydraulicSegment.WithBandTopLevel | PlanProfilYeni/Domain/HydraulicDrawableSegment.cs:17 | setting BandTopLevelMeters changes that field only |
| Domain.ValidateHydraulicOptions | PlanProfilYeni/Domain/HydraulicBuildOptions.cs:29-33 | passes iff step and factor are positive; the step is checked first, and a bad factor fails even in absolute mode |
| Domain.DefaultHydraulicOptionsValid | PlanProfilYeni/Domain/HydraulicBuildOptions.cs:18-27 | the defaults are step 4, absolute mode, factor 1, and they validate |
| Domain.FactoriesCarryOnlyOwnFields | PlanProfilYeni/Domain/ProfileEquipmentItem.cs:31-44 | each factory gives its own type at the given distance, with its own value and no field of another type |
| Domain.EffectiveBreaks | PlanProfilYeni/Services/ProfileClipService.cs:33-40 | keeps exactly the finite breaks strictly between 0 and 999999, in order |
| Domain.EffectiveBreakFormsAgree | PlanProfilYeni/Services/HydraulicProfileBuilder.cs:170-181 | the builder's two-test filter keeps the same breaks as the clip service's one-test filter |
| Domain.EffectiveBreaksKeepsInRange | PlanProfilYeni/Services/ProfileClipService.cs:36-38 | a list of breaks all in range passes unchanged |
| BandService.SampleCount | PlanProfilYeni/Services/ProfileBandService.cs:47 | the samples k/10 (k >= 1) at or below the route end are exactly k = 1..n |
| BandService.ScanStepKeepsHeights | PlanProfilYeni/Services/ProfileBandService.cs:63-96 | one scan sample adds at most two bands, each 13 m high |
| BandService.ScanKeepsHeights | PlanProfilYeni/Services/ProfileBandService.cs:47-97 | every band the scan emits is 13 m high |
| BandService.BandsAre13High | PlanProfilYeni/Services/ProfileBandService.cs:75-102 | with the closing band there is at least one band, and every band is exactly 13 m high |
| BandService.ScanCandidatesCoverSample | PlanProfilYeni/Services/ProfileBandService.cs:63-73 | after a sample the top candidate is at or above the ground and the base candidate at or below the pipe |
| BandService.LevelIndex | PlanProfilYeni/Services/ProfileBandService.cs:142-147 | the band cursor is the crossing count, capped at the last band index |
| BandService.CollectPipeCrossings | PlanProfilYeni/Services/ProfileBandService.cs:131-151 | the breaks become `PipeRun` of the earlier ones: one base-level crossing of this pipe segment per band passed, earlier breaks kept, stopping with the segment end back at or above the base or with the cursor at the last band; each new break is a crossing of this segment |
| BandService.CollectGroundCrossings | PlanProfilYeni/Services/ProfileBandService.cs:154-179 | the same for a ground vertex rising above the top level, as `GroundRun` |
| BandService.BuildBreakKms | PlanProfilYeni/Services/ProfileBandService.cs:116-208 | the collected breaks are `Crossings`, the fold over pipe segments and, inside each, the pipe loop or the ground loop; they are crossings in scan order; one break per band: the last is the route end, break i is the i-th of `Crossings`, or the route end when fewer were found |
| BandService.CrossingsExample | PlanProfilYeni/Services/ProfileBandService.cs:131-151 | a pipe falling from 95 m to 60 m over 10 m under flat ground at 100 m, with bands 100-87 and 87-74, gives the breaks 16/7 m and 6 m |
| BandService.ScanGround | PlanProfilYeni/Services/ProfileBandService.cs:153-179 | the ground loop for one pipe segment turns the breaks into `GroundScan` of the earlier ones (each vertex inside the segment and above the cursor's top adds its `GroundRun`); every collected break stays a crossing, in scan order, from this or an earlier segment, with the cursor at the capped crossing count |
| BandService.VisitVertex | PlanProfilYeni/Services/ProfileBandService.cs:155-179 | one ground vertex advances `GroundScan` by one step: inside the pipe segment and above the cursor's top it adds its crossings, otherwise nothing; collected breaks stay crossings in scan order |
| BandService.PadBreaks | PlanProfilYeni/Services/ProfileBandService.cs:182-205 | exactly one break per band; the last is the end distance; every other is the collected break at that position, or the end distance when too few were collected |
| BandService.CheckShapes | PlanProfilYeni/Services/ProfileBandService.cs:27-30 | ground then pipe must be even arrays of at least two points; the first bad one is named |
| BandService.ScanSample | PlanProfilYeni/Services/ProfileBandService.cs:63-96 | one pass of the sampling loop computes the scan step on the candidates and the emitted bands |
| BandService.ScanSamples | PlanProfilYeni/Services/ProfileBandService.cs:47-97 | the sampling loop stops iff the pipe is above the ground at some sample, and then reports the first such sample; otherwise its bands plus the closing band are the scan's bands |
| BandService.CloseBands | PlanProfilYeni/Services/ProfileBandService.cs:99-107 | the band set keeps the scanned levels, has at least one band, each 13 m high, and one break per band: the last at the end distance, break i the i-th of `Crossings` of the scanned levels or the end distance when fewer were found |
| BandService.BuildBands | PlanProfilYeni/Services/ProfileBandService.cs:23-108 | fails on bad shapes; otherwise succeeds iff the pipe is never above the ground at a sample, and a failure names the first such sample; on success the bands are the scan's bands, each 13 m high, at least one, with one break per band, the last at the route end and break i the i-th of `Crossings` of the scanned levels (a crossing at that band's level) or the route end when fewer were found |
| BandService.PipeCrossingOnLine | PlanProfilYeni/Services/ProfileBandService.cs:136-139 | the pipe break is minus infinity iff the segment is flat; otherwise it lies on the segment's line at the base level, within the segment when the segment starts at or above that level |
| BandService.GroundCrossingOnLine | PlanProfilYeni/Services/ProfileBandService.cs:165-168 | the ground break is minus infinity iff the segment is flat; otherwise it lies on the line at the top level, within the segment when the segment starts at or below that level |
| ClipService.ReadPoints | PlanProfilYeni/Services/ProfileClipService.cs:44-50 | one point per pair, in order |
| ClipService.ReadPointsRoundTrip | PlanProfilYeni/Services/ProfileClipService.cs:44-50 | flattening the points gives back the pairs |
| ClipService.FindStraddle | PlanProfilYeni/Services/ProfileClipService.cs:54-59 | the first segment whose distances strictly enclose the break, or none |
| ClipService.InsertBreak | PlanProfilYeni/Services/ProfileClipService.cs:52-66 | adds at most one point; an empty list stays empty |
| ClipService.InsertBreakpoint | PlanProfilYeni/Services/ProfileClipService.cs:52-66 | with no enclosing segment the list is unchanged; otherwise the interpolated point is inserted at the first enclosing segment and nothing else changes |
| ClipService.ChordOnLine | PlanProfilYeni/Services/ProfileClipService.cs:61 | the inserted elevation is on the straight line between the neighbours and between their elevations |
| ClipService.InsertBreakKeepsOrder | PlanProfilYeni/Services/ProfileClipService.cs:59-62 | distances stay strictly increasing; first and last points and every old point are kept |
| ClipService.InsertBreakMakesVertex | PlanProfilYeni/Services/ProfileClipService.cs:54-65 | a break within the line's range is a vertex afterwards |
| ClipService.InsertBreakKeepsEnds | PlanProfilYeni/Services/ProfileClipService.cs:54-65 | one insertion keeps the first and the last point |
| ClipService.InsertAllBreaks | PlanProfilYeni/Services/ProfileClipService.cs:25-26 | inserting every break never shortens the list |
| ClipService.InsertAllBreaksIncreasing | PlanProfilYeni/Services/ProfileClipService.cs:25-26 | after all insertions the distances still strictly increase |
| ClipService.InsertAllBreaksKeepsEnds | PlanProfilYeni/Services/ProfileClipService.cs:25-26 | after all insertions the first and last points are the original ones |
| ClipService.InsertBreaks | PlanProfilYeni/Services/ProfileClipService.cs:25-26 | the insertion loop inserts every break, one after another in list order |
| ClipService.InsertAllBreaksMakesVertices | PlanProfilYeni/Services/ProfileClipService.cs:25-26 | on increasing distances every break within the line's range is a vertex after all insertions |
| ClipService.PassBreaks | PlanProfilYeni/Services/ProfileClipService.cs:82-89 | the inner loop keeps the walk invariant and exits with the point at or before the next break |
| ClipService.PassBreak | PlanProfilYeni/Services/ProfileClipService.cs:82-89 | one pass closes the open buffer into its band, seeds the next buffer at (break, last elevation), moves to the next break and keeps the walk invariant |
| ClipService.BuildBandSegments | PlanProfilYeni/Services/ProfileClipService.cs:68-96 | the result is a band split: each point after the first is in exactly one buffer, in order; buffers are seeded at the first point or at (break, last elevation); each buffer but the last is closed by a point beyond its break; the segments are the buffers of two or more points |
| ClipService.SplitByBands | PlanProfilYeni/Services/ProfileClipService.cs:15-29 | fails iff the pairs are odd (index out of range) or empty (argument out of range, from the list indexer); otherwise it is the band split of the break-augmented points, with the effective breaks |
| ClipService.KeptSegments | PlanProfilYeni/Services/ProfileClipService.cs:98-102 | kept segments are pair arrays of at least two points, with band indexes in range and non-decreasing |
| ClipService.BandSplitSegments | PlanProfilYeni/Services/ProfileClipService.cs:72-101 | every segment of a band split has at least two points, a band in range, and bands never decrease |
| ClipService.NoBreaksSingleSegment | PlanProfilYeni/Services/ProfileClipService.cs:68-96 | with no breaks the whole line is one segment of band 0 (none for a single point) |
| HydraulicBuilder.ReadHydraulicPoints | PlanProfilYeni/Services/HydraulicProfileBuilder.cs:143-168 | one point per pair; y is the value in absolute mode, else the pipe elevation there plus value times factor |
| HydraulicBuilder.AbsoluteReadRoundTrip | PlanProfilYeni/Services/HydraulicProfileBuilder.cs:153-156 | in absolute mode flattening the points gives back the series |
| HydraulicBuilder.HeadElevationSign | PlanProfilYeni/Services/HydraulicProfileBuilder.cs:157-162 | with a positive factor the head's sign decides: a zero head is on the pipe, a positive one above it, a negative one below it |
| HydraulicBuilder.ZeroHeadOnPipe | PlanProfilYeni/Services/HydraulicProfileBuilder.cs:157-162 | in head mode a zero head lies on the pipe |
| HydraulicBuilder.HeadAbovePipe | PlanProfilYeni/Services/HydraulicProfileBuilder.cs:157-162 | in head mode a positive head lies above the pipe |
| HydraulicBuilder.InterpolateYOnLine | PlanProfilYeni/Services/HydraulicProfileBuilder.cs:183-189 | the straight line through both points; with equal distances it gives the first elevation; it stays between the two elevations |
| HydraulicBuilder.AddSegmentIfValid | PlanProfilYeni/Services/HydraulicProfileBuilder.cs:210-225 | a buffer of two or more points whose ends differ becomes one appended segment with that band, reference top and band top level; any other buffer adds nothing |
| HydraulicBuilder.Cut | PlanProfilYeni/Services/HydraulicProfileBuilder.cs:81-103 | one band cut keeps the walk state well-formed |
| HydraulicBuilder.CrossBands | PlanProfilYeni/Services/HydraulicProfileBuilder.cs:79-104 | the band loop leaves the point at or before the band end; after a cut the reference top is the new band's top level; with no cut nothing changes |
| HydraulicBuilder.Drop | PlanProfilYeni/Services/HydraulicProfileBuilder.cs:110-125 | one micro-break keeps the walk state well-formed |
| HydraulicBuilder.StepsBelowFalls | PlanProfilYeni/Services/HydraulicProfileBuilder.cs:108-120 | each micro-break lowers the number of whole steps the point lies below the reference top, so the loop ends |
| HydraulicBuilder.DropBelow | PlanProfilYeni/Services/HydraulicProfileBuilder.cs:108-126 | after the loop the point is at or above top - step; the earlier markers are kept; the top dropped one step per new marker; with no marker nothing changed |
| HydraulicBuilder.Visit | PlanProfilYeni/Services/HydraulicProfileBuilder.cs:75-130 | one main-loop iteration keeps the walk state well-formed |
| HydraulicBuilder.WalkTo | PlanProfilYeni/Services/HydraulicProfileBuilder.cs:60-131 | the state after visiting the first n points is well-formed |
| HydraulicBuilder.BuildSpec | PlanProfilYeni/Services/HydraulicProfileBuilder.cs:45-64 | succeeds iff both arrays are pairs of at least two points, the options validate and there is a band; otherwise the first failing check's error, in code order |
| HydraulicBuilder.CutOk | PlanProfilYeni/Services/HydraulicProfileBuilder.cs:83-103 | a band cut keeps every segment and marker well-formed, keeps the band equal to the capped break count, and keeps the top on the band's ladder |
| HydraulicBuilder.CrossBandsOk | PlanProfilYeni/Services/HydraulicProfileBuilder.cs:79-104 | the band loop keeps the walk invariant |
| HydraulicBuilder.DropOk | PlanProfilYeni/Services/HydraulicProfileBuilder.cs:108-125 | a micro-break keeps the walk invariant; its marker is well-formed |
| HydraulicBuilder.DropBelowOk | PlanProfilYeni/Services/HydraulicProfileBuilder.cs:108-126 | the micro-break loop keeps the walk invariant |
| HydraulicBuilder.StartOk | PlanProfilYeni/Services/HydraulicProfileBuilder.cs:60-71 | the walk starts in band 0 at that band's top with nothing emitted, which satisfies the walk invariant |
| HydraulicBuilder.VisitOk | PlanProfilYeni/Services/HydraulicProfileBuilder.cs:75-130 | one main-loop iteration keeps the walk invariant |
| HydraulicBuilder.WalkToOk | PlanProfilYeni/Services/HydraulicProfileBuilder.cs:73-131 | the main loop keeps the walk invariant for every prefix of points |
| HydraulicBuilder.BuildSegmentsWellFormed | PlanProfilYeni/Services/HydraulicProfileBuilder.cs:210-225 | every segment has two or more points and distinct ends, a band in range and BandTopLevelMeters equal to that band's top; its reference top is a whole number of steps below it; bands never decrease |
| HydraulicBuilder.BuildMarkersWellFormed | PlanProfilYeni/Services/HydraulicProfileBuilder.cs:108-114 | every marker drops exactly one step from a top on its band's ladder, at the distance of a point below the new top, in a band in range; bands never decrease |
| HydraulicBuilder.CutJoinsSegments | PlanProfilYeni/Services/HydraulicProfileBuilder.cs:83-95 | the cut point ends the closed segment and is the whole new buffer; it is at the break distance and between the two elevations |
| HydraulicBuilder.MicroBreakRestarts | PlanProfilYeni/Services/HydraulicProfileBuilder.cs:110-125 | a micro-break appends its marker, closes the old buffer under the old top, lowers the top by one step and restarts the buffer at the point |
| HydraulicBuilder.DropBelowRestarts | PlanProfilYeni/Services/HydraulicProfileBuilder.cs:108-126 | after at least one micro-break the open buffer is the triggering point alone |
| HydraulicBuilder.VisitAppendsAboveLimit | PlanProfilYeni/Services/HydraulicProfileBuilder.cs:108-130 | the point is appended last, with its elevation at or above top - step; after a micro-break the buffer holds the point twice |
| HydraulicBuilder.VisitLowersReference | PlanProfilYeni/Services/HydraulicProfileBuilder.cs:98-126 | within a band the top drops exactly one step per marker; after a band advance it was first reset to the new band's top level |
| HydraulicBuilder.QuietWalk | PlanProfilYeni/Services/HydraulicProfileBuilder.cs:73-131 | with no breaks and no point a step below the first top, the walk keeps every point in one buffer and emits nothing |
| HydraulicBuilder.QuietSeriesSingleSegment | PlanProfilYeni/Services/HydraulicProfileBuilder.cs:34-135 | in absolute mode, with no effective break and no value a step below the first band's top, the result is no marker and the whole series as one band-0 segment (none if its ends coincide) |
| HydraulicBuilder.PassBandEnds | PlanProfilYeni/Services/HydraulicProfileBuilder.cs:79-104 | the band loop computes the band-crossing function and the band end of the new pointer |
| HydraulicBuilder.CutAtBandEnd | PlanProfilYeni/Services/HydraulicProfileBuilder.cs:81-103 | one pass of the band loop performs one band cut and reads the next band end |
| HydraulicBuilder.MicroBreaks | PlanProfilYeni/Services/HydraulicProfileBuilder.cs:108-126 | the micro-break loop computes the micro-break function |
| HydraulicBuilder.WalkPoints | PlanProfilYeni/Services/HydraulicProfileBuilder.cs:60-133 | the main loop and the final close compute the walk over all points |
| HydraulicBuilder.Build | PlanProfilYeni/Services/HydraulicProfileBuilder.cs:34-135 | Build equals the specification function: its errors, and on success the walk over the read points with the effective breaks |
| VerticalBreak.BreakVertically | PlanProfilYeni/Services/HydraulicVerticalBreakService.cs:14-43 | fails iff the array is odd; otherwise the pieces end to end, plus a dropped tail of fewer than two points, give the input; piece k lies within 4(k+1) below the limit; each piece but a kept last one was cut by a value below its floor; with nothing dropped the last piece holds at least two points; an empty series gives no pieces |
| VerticalBreak.CutStep | PlanProfilYeni/Services/HydraulicVerticalBreakService.cs:28-33 | a cut emits the buffer unchecked (possibly empty) and lowers the top by exactly 4 |
| VerticalBreak.AppendPairStep | PlanProfilYeni/Services/HydraulicVerticalBreakService.cs:35-36 | a pair is appended only when its value is at or above top - 4 |
| VerticalBreak.FirstPieceNotCut | PlanProfilYeni/Services/HydraulicVerticalBreakService.cs:21-30 | with the top starting at the limit, no value 4 m below it means the first piece is not cut |
| VerticalBreak.NoDropOnePiece | PlanProfilYeni/Services/HydraulicVerticalBreakService.cs:23-40 | a series that never drops 4 m below the limit is returned as a single piece equal to the input |
| Extrema.Detect | PlanProfilYeni/Services/PipeExtremaDetector.cs:13-47 | fewer than three points give two empty lists; otherwise the strict maxima and the strict minima, in vertex order |
| Extrema.VantuzAreStrictMaxima | PlanProfilYeni/Services/PipeExtremaDetector.cs:38-39 | a distance is an air valve candidate iff it is an interior vertex strictly above both neighbours |
| Extrema.TahliyeAreStrictMinima | PlanProfilYeni/Services/PipeExtremaDetector.cs:42-43 | a distance is a drain candidate iff it is an interior vertex strictly below both neighbours |
| Extrema.ReportedAtMostNMinus2 | PlanProfilYeni/Services/PipeExtremaDetector.cs:26-44 | together the two lists hold at most n - 2 distances |
| Extrema.VantuzAndTahliyeDisjoint | PlanProfilYeni/Services/PipeExtremaDetector.cs:38-43 | on increasing distances no distance is in both lists |
| Extrema.EndpointsNotReported | PlanProfilYeni/Services/PipeExtremaDetector.cs:26 | the first and last distances are in neither list |
| Extrema.VantuzInOrder | PlanProfilYeni/Services/PipeExtremaDetector.cs:26-39 | air valve candidates are strictly increasing |
| Extrema.TahliyeInOrder | PlanProfilYeni/Services/PipeExtremaDetector.cs:26-43 | drain candidates are strictly increasing |
| EquipmentBuilder.HydrantsOf | PlanProfilYeni/Services/ProfileEquipmentBuilder.cs:36-44 | null tuples are skipped; every item is a hydrant carrying only hydrant fields |
| EquipmentBuilder.JunctionsOf | PlanProfilYeni/Services/ProfileEquipmentBuilder.cs:47-55 | null tuples and blank labels are skipped; every item is a line split carrying only its label |
| EquipmentBuilder.BkvsOf | PlanProfilYeni/Services/ProfileEquipmentBuilder.cs:58-66 | null tuples are skipped; every item is a BKV carrying only its static level |
| EquipmentBuilder.Positives | PlanProfilYeni/Services/ProfileEquipmentBuilder.cs:97-99 | exactly the distances greater than 0 are kept |
| EquipmentBuilder.AddAll | PlanProfilYeni/Services/ProfileEquipmentBuilder.cs:93-101 | the target is kept as a prefix and exactly the positive distances of a non-null list follow, in order |
| EquipmentBuilder.RemoveConflictingVantuz | PlanProfilYeni/Services/ProfileEquipmentBuilder.cs:103-120 | the backward in-place removal leaves exactly the air valves with no drain strictly within the tolerance, in order |
| EquipmentBuilder.KeepClearNoDrains | PlanProfilYeni/Services/ProfileEquipmentBuilder.cs:105-106 | with either list empty nothing is removed |
| EquipmentBuilder.KeepClearMembers | PlanProfilYeni/Services/ProfileEquipmentBuilder.cs:108-119 | a distance survives iff it was an air valve with no drain strictly within the tolerance |
| EquipmentBuilder.NoConflictRemains | PlanProfilYeni/Services/ProfileEquipmentBuilder.cs:108-119 | no surviving air valve is strictly within the tolerance of any drain |
| EquipmentBuilder.KeepClearSplits | PlanProfilYeni/Services/ProfileEquipmentBuilder.cs:108-116 | removal works valve by valve: a concatenation is filtered piecewise, so relative order is kept |
| EquipmentBuilder.ClearValvesSurvive | PlanProfilYeni/Services/ProfileEquipmentBuilder.cs:108-116 | air valves clear of every drain all survive, unchanged and in order |
| EquipmentBuilder.AppendHydrants | PlanProfilYeni/Services/ProfileEquipmentBuilder.cs:36-44 | the hydrant loop appends exactly the hydrant items |
| EquipmentBuilder.AppendJunctions | PlanProfilYeni/Services/ProfileEquipmentBuilder.cs:47-55 | the line split loop appends exactly the line split items |
| EquipmentBuilder.AppendBkvs | PlanProfilYeni/Services/ProfileEquipmentBuilder.cs:58-66 | the BKV loop appends exactly the BKV items |
| EquipmentBuilder.AppendValvesAndDrains | PlanProfilYeni/Services/ProfileEquipmentBuilder.cs:84-88 | the air valves are appended, then the drains |
| EquipmentBuilder.MergeValvesAndDrains | PlanProfilYeni/Services/ProfileEquipmentBuilder.cs:72-81 | extrema distances come before manual ones in each list; the conflicting air valves are removed and no drain is |
| EquipmentBuilder.Build | PlanProfilYeni/Services/ProfileEquipmentBuilder.cs:24-91 | the item list is hydrants, line splits, BKVs, surviving air valves, then drains |
| EquipmentBuilder.OutputGrouped | PlanProfilYeni/Services/ProfileEquipmentBuilder.cs:35-88 | the output is grouped in type order, and every item carries only its own type's fields |
| EquipmentBuilder.DrainsNeverRemoved | PlanProfilYeni/Services/ProfileEquipmentBuilder.cs:81-88 | every admitted drain is in the output, in order, as the last items |
| EquipmentBuilder.ValveInOutput | PlanProfilYeni/Services/ProfileEquipmentBuilder.cs:72-88 | an air valve at x is in the output iff x was admitted and no drain is strictly within the tolerance |
| CadTransform.ValidateTransformOptions | PlanProfilYeni/Cad/CadProfileTransformOptions.cs:32-36 | passes iff both scales are positive; the horizontal scale is checked first; origin, grid top and spacing are free |
| CadTransform.DefaultTransformOptionsRejected | PlanProfilYeni/Cad/CadProfileTransformOptions.cs:21-35 | default options fail on CadUnitsPerKm |
| CadTransform.NewTransformer | PlanProfilYeni/Cad/CadProfileTransformer.cs:17-22 | constructed iff the options validate; the band set and options are stored as given |
| CadTransform.ClampBand | PlanProfilYeni/Cad/CadProfileTransformer.cs:33-34 | the index is clamped into [0, BandCount - 1], or -1 with no bands |
| CadTransform.Transformer.ToCadY | PlanProfilYeni/Cad/CadProfileTransformer.cs:31-41 | fails iff there is no band; otherwise y - GridTopY is the depth below the clamped band's top times the vertical scale |
| CadTransform.Transformer.ToCadPoint | PlanProfilYeni/Cad/CadProfileTransformer.cs:48-53 | the point is [ToCadX, ToCadY, 0] |
| CadTransform.BandTopOnGridTop | PlanProfilYeni/Cad/CadProfileTransformer.cs:36-40 | every band's top level is drawn at GridTopY |
| CadTransform.ToCadXIncreasing | PlanProfilYeni/Cad/CadProfileTransformer.cs:28 | with valid options x strictly increases with the distance |
| CadTransform.ToCadYIncreasing | PlanProfilYeni/Cad/CadProfileTransformer.cs:40 | with valid options y strictly increases with the elevation |
| CadTransform.ToCadYClamps | PlanProfilYeni/Cad/CadProfileTransformer.cs:33-34 | a negative index acts as band 0, an index past the end as the last band |
| CadTransform.ToCadXUnclamped | PlanProfilYeni/Cad/CadProfileTransformer.cs:27-28 | x is not clamped; only a positive index adds index times the panel spacing |
| CadTransform.ZeroSpacingBandFree | PlanProfilYeni/Cad/CadProfileTransformer.cs:27-28 | with zero spacing x does not depend on the band |
| EquipmentDrawer.FirstCovering | PlanProfilYeni/Cad/CadProfileEquipmentDrawer.cs:351-353 | the first break at or after the distance, or none |
| EquipmentDrawer.ResolveBandIndex | PlanProfilYeni/Cad/CadProfileEquipmentDrawer.cs:349-357 | the scan returns the resolved band, which is a valid index when there is a band |
| EquipmentDrawer.ResolvedBandSpec | PlanProfilYeni/Cad/CadProfileEquipmentDrawer.cs:351-356 | the first i with km <= BreakKms[i], capped at the last band; the last band past every break; a valid index with at least one band |
| EquipmentDrawer.ItemAnchor | PlanProfilYeni/Cad/CadProfileEquipmentDrawer.cs:74-85 | fails iff a band set has no band; x is ToCadX at the resolved band |
| EquipmentDrawer.AnchorAboveHydraulicGrid | PlanProfilYeni/Cad/CadProfileEquipmentDrawer.cs:79-85 | with shared bands and scale every symbol is at GridTopY + 6 m + the offset, whatever the pipe elevation |
| EquipmentDrawer.InterpolatePipeElevation | PlanProfilYeni/Cad/CadProfileEquipmentDrawer.cs:359-374 | fails iff the array is empty; otherwise it is the scan over segments with inclusive bounds |
| EquipmentDrawer.PipeElevationAtVertex | PlanProfilYeni/Cad/CadProfileEquipmentDrawer.cs:361-370 | because the bounds are inclusive, every vertex gives its own elevation |
| EquipmentDrawer.PipeElevationInsideSegment | PlanProfilYeni/Cad/CadProfileEquipmentDrawer.cs:361-370 | inside a segment the result is the straight line |
| EquipmentDrawer.PipeElevationOutsideRange | PlanProfilYeni/Cad/CadProfileEquipmentDrawer.cs:361-373 | before the first or past the last distance the last elevation is returned |
| HydraulicDrawer.FindHydraulicElevationRange | PlanProfilYeni/Cad/CadProfileHydraulicDrawer.cs:85-110 | from the elevation entries only: the least and greatest, each attained by some entry; [1070, 1074] when there are none |
| HydraulicDrawer.ReadStep | PlanProfilYeni/Cad/CadProfileHydraulicDrawer.cs:96-101 | reading one elevation keeps the running minimum and maximum exact |
| HydraulicDrawer.NextSegment | PlanProfilYeni/Cad/CadProfileHydraulicDrawer.cs:93-96 | moving to the next segment keeps the running range |
| HydraulicDrawer.BandSpan | PlanProfilYeni/Cad/CadProfileHydraulicDrawer.cs:66-67 | fails iff band b has no break; otherwise it spans from the previous break (0 for band 0) to its own |
| HydraulicDrawer.BandSpansChain | PlanProfilYeni/Cad/CadProfileHydraulicDrawer.cs:66-67 | the first band starts at 0 and each band ends where the next starts |
| HydraulicDrawer.EffectiveRange | PlanProfilYeni/Cad/CadProfileHydraulicDrawer.cs:242-243 | the range is always positive (4 m replaces a non-positive one) |
| HydraulicDrawer.NormalizeMapsRangeOntoGrid | PlanProfilYeni/Cad/CadProfileHydraulicDrawer.cs:261-263 | the minimum maps to 0 and a distinct maximum to 4 m; the map is strictly increasing and keeps the range inside [0, 4] |
| HydraulicDrawer.CurveVertexY | PlanProfilYeni/Cad/CadProfileHydraulicDrawer.cs:234-267 | defined iff the band exists in the drawer's set and the transformer has a band |
| HydraulicDrawer.MarkerEnds | PlanProfilYeni/Cad/CadProfileHydraulicDrawer.cs:298-315 | defined iff the marker's band exists and the transformer has a band |
| HydraulicDrawer.CurveOnHydraulicGrid | PlanProfilYeni/Cad/CadProfileHydraulicDrawer.cs:234-267 | a vertex is drawn 2 m plus its normalised height above GridTopY; the minimum is on the grid's bottom edge and the maximum on its top edge |
| HydraulicDrawer.MarkersUseCurveMapping | PlanProfilYeni/Cad/CadProfileHydraulicDrawer.cs:295-315 | break marks use the curve's mapping for both reference tops, at the curve's x |
| HydraulicDrawer.MarkerLength | PlanProfilYeni/Cad/CadProfileHydraulicDrawer.cs:311-315 | a one-step mark is step/range grid heights long |

## Left out

- Null arguments: Dafny sequences are never null, so the ArgumentNullException checks are not modelled. The exception is the equipment builder, where null lists and tuples are skipped, not rejected; it uses `Option`.
- BandService.BuildBands: requires strictly increasing distances on both lines, which the code does not check. With them, the only degenerate slope is a flat segment, and that is modelled as minus infinity.
- BandService.BuildBreakKms: does not state that breaks are sorted, because the code does not sort them.
- Floating point: all arithmetic is exact. The `km += 0.1` scan is the exact samples k/10. The 1e-12 tolerances in `InterpolateY` and `AddSegmentIfValid` are exact equality. No rounding, overflow, NaN or infinity is modelled except the cases below.
- Minus infinity from a flat-slope break division is `BreakKm.NegInfinity`. The 0/0 NaN of the equipment drawer's lookup on a zero-length segment is `None`.
- HydraulicDrawer.FindHydraulicElevationRange: unset is modelled as "no elevation read". In the code it is `minElev == double.MaxValue`, so a data value equal to double.MaxValue would also trigger the default range.
- Exception message text (including the formatted distance of the "pipe above ground" message) is replaced by an error value carrying the argument name or the sample distance.
- Integer casts: `(int)Math.Round(...)` of ceilings and floors, and int band indexes, are unbounded integers; 32-bit overflow is not modelled.
- EquipmentBuilder.IsNullOrWhiteSpace: `char.IsWhiteSpace` is modelled by its fixed character set; no culture data is used.
- CAD output: layers, lines, blocks, grid lines and text, and COM release, are not modelled. Only the coordinates the drawers compute are. The drawers' own band set and the transformer's band set are separate parameters, as in the code.
- HydraulicDrawableSegment is a value. Setting `BandTopLevelMeters` returns an updated value (`WithBandTopLevel`), so aliasing of the mutable object is not modelled.
- Single source methods split into helper methods keep the code's order of updates. The band and micro-break loops of `HydraulicProfileBuilder.Build`, and one pass of its band loop, are helpers. So are the inner loop of `BuildBandSegments` and one pass of it, the break-insertion loop of `SplitByBands`, the sampling loop and the closing step of `BuildBands`, the crossing loops, the ground loop and one pass of it, and the final padding of `BuildBreakKms`, and the list loops of `ProfileEquipmentBuilder.Build`. `GetPrevPointForInterpolation` is inlined as the previous point.
- Excel readers and writers, use cases, the UI, the header, footer, grid and table printers, and `GeometryService` are not part of this model.
