# Building control system: floor-plan core in Dafny

This project models the logic underneath a building-control web application.
The application draws buildings on a map, edits floor plans and manages shelves
and the products on them. What the model covers:

- **DXF import.** Two importers turn the entities of a parsed DXF drawing
  (LINE, LWPOLYLINE, POLYLINE) into building elements inside a 10 x 10 canvas.
  `dxfProcessor.ts` maps coordinates relative to the centre of the drawing.
  The importer embedded in `FloorPlanModal.tsx` maps them relative to its
  minimum corner. Each importer measures the bounds, derives the scale,
  classifies LINEs as outer walls and polylines as rooms or inner walls, and
  fails when nothing is left. Only `dxfProcessor.ts` drops short LINEs and
  small rooms and names rooms "Oda k"; the in-file importer keeps every LINE,
  even one of length zero, and leaves rooms unnamed.
- **The floor-plan element store** (`FloorPlanModal.tsx`):
  - delete the selected element;
  - merge an update into the selected element;
  - set a floor property;
  - append an imported floor;
  - append a drawn element with its default name;
  - the element-kind tables and `createFeatureFromElement`, the mapping from
    an element to a map geometry.
- **The WKT printer and parser** (`wktUtils.ts`) for Point, LineString and
  Polygon, the well-known text form of OGC Simple Features (ISO 19125-1,
  clause 7).
- **State stores:**
  - the map-state reducer (`MapContext.tsx`) and the point-in-polygon analysis
    effect beside it;
  - the two Redux slices (`mapSlice.ts`, `drawSlice.ts`);
  - the extent-based polygon analyser component (`oplmap/.../PolygonAnalyzer.tsx`).
- **Small validators:**
  - the shelf editor (`ShelfSystem.tsx`): shelf types, section clamping,
    capacity, products;
  - the product form (`ProductDetailModal.tsx`);
  - the building list's save and select handlers (`MapComponent.tsx`).

## Layout

| file | module | what it holds |
|---|---|---|
| wrappers.dfy | Wrappers | `Option` and `Result` |
| text.dfy | Text | JavaScript string helpers the sources use: `trim`, `parseInt`, `split`/`join`, `split(c)[0]` (`BeforeFirst`), `toUpperCase` |
| floor_types.dfy | FloorTypes | elements, floors, buildings, the `elementTypes` table |
| dxf_processor.dfy | DxfProcessor | `dxfProcessor.ts`: bounds loop, scale, normalisation, classification, shoelace loop, whole import |
| dxf_in_file.dfy | DxfInFile | the importer inside `FloorPlanModal.tsx` |
| floor_editor.dfy | FloorEditor | the editor's copy-on-write store operations and `createFeatureFromElement` |
| wkt.dfy | Wkt | `geometryToWKT` and `wktToGeometry`, with `Number` on integer numerals (`NumberOf`) |
| ol_feature.dfy | OlFeature | an abstract map feature (identity, geometry type, flat coordinates) |
| map_context.dfy | MapContext | `mapReducer`, `initialState` and the analysis effect of `libs/map/src/PolygonAnalyzer.tsx` |
| extent_analyzer.dfy | ExtentAnalyzer | the vector source and the analyser component of `oplmap/.../PolygonAnalyzer.tsx` |
| map_slice.dfy | MapSlice | the `drawingTypes` slice |
| draw_slice.dfy | DrawSlice | the draw slice |
| shelf_system.dfy | ShelfSystem | the shelf editor |
| product_form.dfy | ProductForm | the product dialog |
| building_list.dfy | BuildingList | building list save and select |

## Modelling choices

- **Numbers and NaN.** Coordinates are `real`. A NaN coordinate is an absent
  value, and a missing `x` or `y` field reads as 0, as in `coord.x ?? coord[0] ?? 0`.
- **Degenerate lines.** The test `Math.sqrt(dx*dx + dy*dy) < 0.01` becomes
  `dx*dx + dy*dy < 0.0001`.
- **Object identity.** The editor finds elements with `===`. An element
  therefore carries a synthetic `id`, and every spread copy `{...el}` gets a
  fresh id passed in by the caller. The importers close a room with
  `[...vertices, vertices[0]]`, which reuses the first vertex object; the
  element's `closingShared` flag records this. `createFeatureFromElement`
  appends the first vertex again only when that flag is not set.
- **Mutable state.** Code that mutates in place is modelled as classes whose
  methods state the whole new state:
  - the Redux slices;
  - the analyser component and its vector source;
  - the shelf editor's component state and feature;
  - the product dialog.
- **Step-by-step loops.** The two passes and the area loop of
  `dxfProcessor.ts` are methods with loops, each proved equal to a function.
  That function is what the lemmas are about.
- **Copy-on-write code** (the editor, the reducers, the WKT code, the list
  handlers) is modelled as functions.
- **OpenLayers predicates** become function-typed parameters:
  - `intersectsCoordinate` becomes `intersects`;
  - `containsExtent` of the two extents becomes `extentInside`.
- **WKT numbers** are integers or NaN, printed and read by the decimal
  conversions of `Text`.

**The two importers' shape tests:**

- **Polygon area in `dxfProcessor.ts`.** The comment at dxfProcessor.ts:124
  says the loop computes the area of closed polygons, but it sums the
  shoelace terms non-cyclically, with no closing-edge term
  (dxfProcessor.ts:127-130). A closed polyline whose last vertex is not a
  repeat of the first can therefore be measured wrongly, and dropped; see
  "## Findings".
  - `DxfProcessor.ShoelaceMissesClosingEdge` states the difference.
  - `DxfProcessor.ClosedTriangleDropped` shows one input this affects: a
    closed-flag right triangle of area 50 that yields no element.
  - `DxfProcessor.RingEntityElement` measures the ring with its closing edge;
    `DxfProcessor.ClosedTriangleKeptByRingArea` shows it keeps that triangle.
- **Rooms from the in-file importer** are neither area-filtered nor named.
- **LINEs in the in-file importer** are not length-filtered.

## Model

| member | source | states |
|---|---|---|
| FloorTypes.KindTable | building-control-system/libs/map/src/lib/FloorPlanModal.tsx:133-142 | exactly the four stroked kinds carry a thickness; outer walls are 5 and #333, inner walls 3 and #666 |
| DxfProcessor.ComputeBounds | building-control-system/libs/map/src/lib/dxfProcessor.ts:16-46 | the first forEach pass computes `BoxOf(entities)`, the box that `BoundsCoverEveryPoint` and `FallbackExactlyWithoutPoints` characterise |
| DxfProcessor.BoundsCoverEveryPoint | building-control-system/libs/map/src/lib/dxfProcessor.ts:21-33 | every non-NaN point of a LINE or polyline entity (missing fields read as 0) lies inside the measured bounds |
| DxfProcessor.OtherEntitiesIgnored | building-control-system/libs/map/src/lib/dxfProcessor.ts:21-69 | an entity of any other type contributes no point to the bounds and no element |
| DxfProcessor.FallbackExactlyWithoutPoints | building-control-system/libs/map/src/lib/dxfProcessor.ts:49-63 | the bounds stay infinite exactly when no usable point exists, and then the fallback is 0..10 on both axes with scale 1 |
| DxfProcessor.ScalePositive | building-control-system/libs/map/src/lib/dxfProcessor.ts:55-63 | `min(10/(width\|\|1), 10/(height\|\|1))` is positive for ordered bounds |
| DxfProcessor.AxisInCanvas | building-control-system/libs/map/src/lib/dxfProcessor.ts:55-82 | a value within the bounds maps to 0..10 on its axis under centre-relative scaling |
| DxfProcessor.NormaliseInCanvas | building-control-system/libs/map/src/lib/dxfProcessor.ts:72-83 | every valid point of the input normalises into the 10 x 10 canvas |
| DxfProcessor.CentreMapsToMiddle | building-control-system/libs/map/src/lib/dxfProcessor.ts:57-82 | the centre of the bounds maps to (5, 5) |
| DxfProcessor.LineRule | building-control-system/libs/map/src/lib/dxfProcessor.ts:85-110 | a LINE with a NaN end or normalised length below 0.01 yields nothing; otherwise exactly one outer wall [start, end], thickness 5, colour #333, no name |
| DxfProcessor.PolylineRule | building-control-system/libs/map/src/lib/dxfProcessor.ts:112-144 | fewer than 2 valid vertices yield nothing; closure is more than 2 vertices and the closed flag or a per-axis gap below 0.1; a closed polyline under area 0.01 is dropped, else becomes a room of its vertices plus the shared first vertex, named "Oda k"; an open one becomes an inner wall of thickness 3 |
| DxfProcessor.TwoVertexPolylineIsOpen | building-control-system/libs/map/src/lib/dxfProcessor.ts:119 | a polyline of two valid vertices is never closed, whatever its flag |
| DxfProcessor.PolygonArea | building-control-system/libs/map/src/lib/dxfProcessor.ts:125-131 | the area loop computes `Area(vs)`, half the absolute non-cyclic shoelace sum |
| DxfProcessor.ShoelaceMissesClosingEdge | building-control-system/libs/map/src/lib/dxfProcessor.ts:127-130 | the loop's sum is the cyclic shoelace sum minus the closing-edge term; the two agree when the last vertex repeats the first |
| DxfProcessor.FlatRoomDropped | building-control-system/libs/map/src/lib/dxfProcessor.ts:134 | a closed polyline whose measured area is below 0.01 yields no element |
| DxfProcessor.ClosedTriangleDropped | building-control-system/libs/map/src/lib/dxfProcessor.ts:119-155 | a closed-flag triangle of true area 50 is measured at 0, dropped, and the import fails |
| DxfProcessor.RingAreaLoop | building-control-system/libs/map/src/lib/dxfProcessor.ts:124-131 | the area loop with the closing-edge term computes `RingArea`, half the absolute cyclic shoelace sum |
| DxfProcessor.RingAreaAgreesOnRepeatedVertex | building-control-system/libs/map/src/lib/dxfProcessor.ts:117-146 | when the last normalised vertex repeats the first, measuring with or without the closing edge classifies the entity alike |
| DxfProcessor.RingRoomsHaveArea | building-control-system/libs/map/src/lib/dxfProcessor.ts:124-134 | every room kept under the closing-edge measure has ring area at least 0.01 |
| DxfProcessor.ClosedTriangleKeptByRingArea | building-control-system/libs/map/src/lib/dxfProcessor.ts:117-146 | the closed triangle of area 50 that the importer drops becomes room "Oda 1" under the closing-edge measure |
| DxfProcessor.ProcessEntity | building-control-system/libs/map/src/lib/dxfProcessor.ts:66-146 | the second pass's body for one entity computes `EntityElement`, the element that `LineRule` and `PolylineRule` describe |
| DxfProcessor.Push | building-control-system/libs/map/src/lib/dxfProcessor.ts:66-148 | one loop iteration extends `elements` by the entity's element when it yields one, numbered and room-counted from what came before |
| DxfProcessor.SecondPass | building-control-system/libs/map/src/lib/dxfProcessor.ts:66-150 | the push loop computes `ElementsOf(entities)`, about which the in-canvas, id and room-numbering lemmas are proved |
| DxfProcessor.ElementsOfInCanvas | building-control-system/libs/map/src/lib/dxfProcessor.ts:72-144 | every coordinate of every pushed element lies in the canvas when every entity point does |
| DxfProcessor.ConsecutiveIds | building-control-system/libs/map/src/lib/dxfProcessor.ts:105-136 | elements are pushed one at a time in entity order: the i-th pushed element is the i-th new object |
| DxfProcessor.RoomsNumberedInOrder | building-control-system/libs/map/src/lib/dxfProcessor.ts:141 | each room is named "Oda k" with k one more than the number of rooms before it |
| DxfProcessor.ProcessDxfFile | building-control-system/libs/map/src/lib/dxfProcessor.ts:11-162 | the whole import computes `Import(fileName, parsed)`, whose outcome `ImportOutcome` and `ImportInCanvas` state |
| DxfProcessor.ImportOutcome | building-control-system/libs/map/src/lib/dxfProcessor.ts:11-162 | no entity list fails as invalid; with a list the import fails as empty exactly when the second pass pushes no element; success is the level "(" + file name up to the first '.' + ")" with the scale and elements the two passes computed |
| DxfProcessor.ImportedFloorNumbered | building-control-system/libs/map/src/lib/dxfProcessor.ts:105-162 | the imported floor's elements carry consecutive ids in entity order and its k-th room is named "Oda k" |
| DxfProcessor.ImportInCanvas | building-control-system/libs/map/src/lib/dxfProcessor.ts:16-162 | every coordinate of a successful import lies in the 10 x 10 canvas |
| DxfProcessor.NothingWithoutPoints | building-control-system/libs/map/src/lib/dxfProcessor.ts:76-117 | entities without a usable point yield no element |
| DxfProcessor.DegenerateLineFails | building-control-system/libs/map/src/lib/dxfProcessor.ts:99-155 | a file holding one zero-length LINE fails with no valid elements |
| DxfInFile.ClassifyInModal | building-control-system/libs/map/src/lib/FloorPlanModal.tsx:56-101 | the second pass's body computes `InFileElement`, described by the two rules below |
| DxfInFile.InFileLineRule | building-control-system/libs/map/src/lib/FloorPlanModal.tsx:64-80 | every LINE becomes one outer wall [start, end] of thickness 5, whatever its length |
| DxfInFile.InFilePolylineRule | building-control-system/libs/map/src/lib/FloorPlanModal.tsx:81-96 | a polyline needs more than 2 vertices; closed by per-axis gap below 0.1 it becomes an unnamed room with the first vertex appended, otherwise an inner wall |
| DxfInFile.InFileIgnoresClosedFlag | building-control-system/libs/map/src/lib/FloorPlanModal.tsx:87-89 | the entity's closed flag never changes the outcome |
| DxfInFile.AxisFromCorner | building-control-system/libs/map/src/lib/FloorPlanModal.tsx:52-61 | a value within the bounds maps to 0..10 under `(v - min) * scale` |
| DxfInFile.SecondPassInModal | building-control-system/libs/map/src/lib/FloorPlanModal.tsx:56-101 | the loop over the entities computes `InFileElements`, about which the canvas, id and outcome lemmas are proved |
| DxfInFile.ProcessDxfInModal | building-control-system/libs/map/src/lib/FloorPlanModal.tsx:24-107 | the importer computes `InFileImport`, characterised by `InFileOutcome` and `InFileImportInCanvas` |
| DxfInFile.InFileImportInCanvas | building-control-system/libs/map/src/lib/FloorPlanModal.tsx:26-96 | every coordinate of a successful import lies in the canvas |
| DxfInFile.InFileOutcome | building-control-system/libs/map/src/lib/FloorPlanModal.tsx:103-107 | an empty result fails; success carries level "DXF Import" |
| DxfInFile.NoBoundsNoElements | building-control-system/libs/map/src/lib/FloorPlanModal.tsx:28-101 | when the bounds stay infinite no element is produced |
| DxfInFile.InFileConsecutiveIds | building-control-system/libs/map/src/lib/FloorPlanModal.tsx:74-91 | elements are pushed one at a time in entity order |
| DxfInFile.LineMakesImportSucceed | building-control-system/libs/map/src/lib/FloorPlanModal.tsx:64-105 | a single LINE anywhere in the file makes the import succeed |
| DxfInFile.ZeroLengthLineKeptHere | building-control-system/libs/map/src/lib/FloorPlanModal.tsx:64-80 | a zero-length LINE is kept as an outer wall here, unlike in `dxfProcessor.ts` |
| FloorEditor.DrawGeometryType | building-control-system/libs/map/src/lib/FloorPlanModal.tsx:316-318 | Polygon exactly for room/furniture/raf, Point exactly for product, LineString otherwise |
| FloorEditor.FeatureGeometry | building-control-system/libs/map/src/lib/FloorPlanModal.tsx:144-160 | no feature exactly when the element has no coordinates |
| FloorEditor.FeatureMatchesDrawMode | building-control-system/libs/map/src/lib/FloorPlanModal.tsx:144-160 | a feature's geometry type is the type its kind is drawn with (the draw mode is picked at lines 316-318) |
| FloorEditor.PointAndLineFeatures | building-control-system/libs/map/src/lib/FloorPlanModal.tsx:151-160 | a product becomes the point at its first coordinate; other non-area kinds become the line string of their coordinates |
| FloorEditor.PolygonRingClosed | building-control-system/libs/map/src/lib/FloorPlanModal.tsx:154-157 | an area element's ring starts with its coordinates and ends on its first; the first vertex is appended exactly when first and last are different objects |
| FloorEditor.ImportedRoomsWellFormed | building-control-system/libs/map/src/lib/dxfProcessor.ts:138-140 | elements from either importer whose last vertex is the first object really end on the first coordinate |
| FloorEditor.WithoutIdKeepsOthers | building-control-system/libs/map/src/lib/FloorPlanModal.tsx:225 | the filter keeps exactly the elements with another identity, and changes nothing when none matches |
| FloorEditor.WithoutIdOrder | building-control-system/libs/map/src/lib/FloorPlanModal.tsx:225 | the filter distributes over concatenation, so order is kept |
| FloorEditor.DeleteRule | building-control-system/libs/map/src/lib/FloorPlanModal.tsx:217-229 | no selection changes nothing; otherwise only the current floor loses every element identical to the selection, keeping its level and scale, and the selection is cleared |
| FloorEditor.FirstWithId | building-control-system/libs/map/src/lib/FloorPlanModal.tsx:255 | `findIndex`: the first index holding the identity, or -1 exactly when none does |
| FloorEditor.Merge | building-control-system/libs/map/src/lib/FloorPlanModal.tsx:258 | the merge is a new object, and an empty update copies the element unchanged |
| FloorEditor.UpdateRule | building-control-system/libs/map/src/lib/FloorPlanModal.tsx:251-267 | only the first element identical to the selection is replaced by the merge; other elements and floors are untouched; no match changes nothing |
| FloorEditor.SetFloorPropertyRule | building-control-system/libs/map/src/lib/FloorPlanModal.tsx:270-277 | only the given key of the current floor changes; an index with no floor changes nothing |
| FloorEditor.SetFloorPropertyIdempotent | building-control-system/libs/map/src/lib/FloorPlanModal.tsx:270-277 | setting the same property twice equals setting it once |
| FloorEditor.UploadRule | building-control-system/libs/map/src/lib/FloorPlanModal.tsx:234-249 | a successful import appends its floor at the end, keeping the others; a failed one leaves the building and reports the error |
| FloorEditor.AppendDrawnRule | building-control-system/libs/map/src/lib/FloorPlanModal.tsx:323-345 | the drawn element goes at the end of the current floor only, named "<type name> <count+1>" when no name was typed, with the kind's colour and thickness |
| FloorEditor.DrawnShapeRoundTrip | building-control-system/libs/map/src/lib/FloorPlanModal.tsx:316-329 | a drawn element turns back into a feature of the geometry type it was drawn with (the feature is rebuilt by lines 144-160) |
| FloorEditor.SecondEditLost | building-control-system/libs/map/src/lib/FloorPlanModal.tsx:479-537 | as written, after one property edit the selection is a copy no floor holds, and a second edit leaves the building unchanged (the selection is set at lines 251-267) |
| FloorEditor.SuccessiveEditsApply | building-control-system/libs/map/src/lib/FloorPlanModal.tsx:479-537 | with the selection tracking the stored element, two edits both reach the element (the selection is set at lines 251-267) |
| Wkt.NumberOfNumText | building-control-system/libs/oplmap/src/utils/wktUtils.ts:12-51 | `Number` reads back what number printing wrote, NaN included |
| Wkt.PrintEmptyIffUnsupported | building-control-system/libs/oplmap/src/utils/wktUtils.ts:6-37 | the printed text is empty exactly for a null or unsupported geometry |
| Wkt.ParseOutcome | building-control-system/libs/oplmap/src/utils/wktUtils.ts:42-73 | parsing succeeds exactly for non-empty text whose tag, uppercased before the first '(', is POINT, LINESTRING or POLYGON |
| Wkt.ParsePointFrame | building-control-system/libs/oplmap/src/utils/wktUtils.ts:45-52 | "POINT(" body ")" parses to the point of the body's space-separated numbers |
| Wkt.ParseLineStringFrame | building-control-system/libs/oplmap/src/utils/wktUtils.ts:45-59 | "LINESTRING(" body ")" parses to the body's ", "-separated coordinates |
| Wkt.ParsePolygonFrame | building-control-system/libs/oplmap/src/utils/wktUtils.ts:45-68 | "POLYGON(" body ")" parses to the rings split on "), (" with parentheses removed |
| Wkt.PointRoundTrip | building-control-system/libs/oplmap/src/utils/wktUtils.ts:11-52 | parsing a printed non-empty point gives the same point |
| Wkt.LineStringRoundTrip | building-control-system/libs/oplmap/src/utils/wktUtils.ts:16-59 | parsing a printed line string with non-empty coordinates gives the same line string |
| Wkt.PolygonRoundTrip | building-control-system/libs/oplmap/src/utils/wktUtils.ts:21-68 | parsing a printed polygon with non-empty rings gives the same polygon |
| Wkt.RoundTrip | building-control-system/libs/oplmap/src/utils/wktUtils.ts:5-79 | parse after print is the identity on every printable geometry |
| Wkt.EmptyPointReadsZero | building-control-system/libs/oplmap/src/utils/wktUtils.ts:11-52 | an empty point prints as "POINT()" and reads back as the point (0) |
| Wkt.EmptyLineStringReadsZero | building-control-system/libs/oplmap/src/utils/wktUtils.ts:16-59 | an empty line string reads back as one coordinate (0) |
| Wkt.SpaceBeforeParenRejected | building-control-system/libs/oplmap/src/utils/wktUtils.ts:45-73 | a space between the tag and '(' makes the parse fail |
| Wkt.LowerCaseTagKeepsPrefix | building-control-system/libs/oplmap/src/utils/wktUtils.ts:45-52 | a lower-case "point(" is accepted, but the uppercase-only strip leaves the tag in the first number's text |
| MapContext.InitialStateEmpty | building-control-system/libs/map/src/MapContext.tsx:36-43 | the initial state has empty lists and no draw type |
| MapContext.SettersTouchOneField | building-control-system/libs/map/src/MapContext.tsx:48-70 | setting the draw type or the analysis result changes only that field |
| MapContext.AddFeatureRule | building-control-system/libs/map/src/MapContext.tsx:50-68 | a point is appended to points, a polygon to polygons, each leaving the rest; any other type changes nothing |
| MapContext.ClearRule | building-control-system/libs/map/src/MapContext.tsx:71-90 | 'points' empties points and the result, keeping polygons; 'polygons' the converse; 'all' empties all three |
| MapContext.ClearIdempotent | building-control-system/libs/map/src/MapContext.tsx:71-90 | clearing twice equals clearing once |
| MapContext.ExportUnchanged | building-control-system/libs/map/src/MapContext.tsx:91-92 | an unhandled action returns the state unchanged |
| MapContext.PointsAreAdditionsSinceClear | building-control-system/libs/map/src/MapContext.tsx:46-94 | from the initial state, the points are exactly the points added since the last clear of points, in order |
| MapContext.PointsInsideMembers | building-control-system/libs/map/src/PolygonAnalyzer.tsx:23-28 | a point is in the result exactly when it has a geometry whose coordinate the polygon contains |
| MapContext.PointsInsideOrder | building-control-system/libs/map/src/PolygonAnalyzer.tsx:23-28 | the filter keeps input order |
| MapContext.AnalysisRule | building-control-system/libs/map/src/PolygonAnalyzer.tsx:12-21 | no polygons or no points gives the empty result; nothing is dispatched exactly when the last polygon's geometry is not a Polygon |
| MapContext.OnlyLastPolygonCounts | building-control-system/libs/map/src/PolygonAnalyzer.tsx:18 | earlier polygons never affect the result |
| MapContext.AnalyzeKeepsPoints | building-control-system/libs/map/src/PolygonAnalyzer.tsx:11-29 | the effect changes only the analysis result, and every point it reports is one of the points |
| OlFeature.WithoutFeatureMembers | building-control-system/libs/oplmap/src/components/PolygonAnalyzer.tsx:109 | removing a feature keeps exactly the features with another identity |
| ExtentAnalyzer.InsideMembers | building-control-system/libs/oplmap/src/components/PolygonAnalyzer.tsx:39-54 | a feature is inside exactly when it is a source feature other than the polygon, has a geometry, and its extent lies in the polygon's |
| ExtentAnalyzer.InsideOrder | building-control-system/libs/oplmap/src/components/PolygonAnalyzer.tsx:42-52 | the result keeps source order |
| ExtentAnalyzer.PolygonAnalyzer.FindFeaturesInsidePolygon | building-control-system/libs/oplmap/src/components/PolygonAnalyzer.tsx:32-55 | with no source or no polygon geometry the list stands; otherwise the loop stores `Inside(source features)` |
| ExtentAnalyzer.PolygonAnalyzer.SelectDrawn | building-control-system/libs/oplmap/src/components/PolygonAnalyzer.tsx:75-81 | drawing a polygon selects it and runs the search |
| ExtentAnalyzer.PolygonAnalyzer.ClearSelection | building-control-system/libs/oplmap/src/components/PolygonAnalyzer.tsx:107-113 | the selected polygon leaves the source, the selection becomes null and the list empty |
| ExtentAnalyzer.VectorSource.RemoveFeature | building-control-system/libs/oplmap/src/components/PolygonAnalyzer.tsx:109 | the source drops the features with that identity |
| MapSlice.MapSliceState.constructor | building-control-system/libs/global-state/src/lib/features/map/mapSlice.ts:11-13 | the list starts empty |
| MapSlice.MapSliceState.AddFeature | building-control-system/libs/global-state/src/lib/features/map/mapSlice.ts:19-21 | the payload is appended at the end |
| MapSlice.MapSliceState.RemoveLastFeature | building-control-system/libs/global-state/src/lib/features/map/mapSlice.ts:22-24 | the last entry is dropped; an empty list stays empty |
| MapSlice.MapSliceState.ClearFeatures | building-control-system/libs/global-state/src/lib/features/map/mapSlice.ts:25-27 | the list is left empty |
| MapSlice.PushPop | building-control-system/libs/global-state/src/lib/features/map/mapSlice.ts:19-24 | dropping the last entry after appending restores the list |
| MapSlice.AddThenRemove | building-control-system/libs/global-state/src/lib/features/map/mapSlice.ts:19-24 | `addFeature` then `removeLastFeature` leaves the slice as it was |
| DrawSlice.DrawState.constructor | building-control-system/libs/state-managment/src/slices/drawSlice.ts:8-12 | no features, inactive, draw type Point |
| DrawSlice.DrawState.AddFeature | building-control-system/libs/state-managment/src/slices/drawSlice.ts:17-19 | one feature appended at the end, the other fields kept |
| DrawSlice.DrawState.SetFeatures | building-control-system/libs/state-managment/src/slices/drawSlice.ts:20-22 | the list is replaced, the other fields kept |
| DrawSlice.DrawState.ClearFeatures | building-control-system/libs/state-managment/src/slices/drawSlice.ts:23-25 | the list is emptied, the other fields kept |
| DrawSlice.DrawState.SetDrawType | building-control-system/libs/state-managment/src/slices/drawSlice.ts:26-28 | only the draw type changes |
| DrawSlice.DrawState.SetIsActive | building-control-system/libs/state-managment/src/slices/drawSlice.ts:29-31 | only the active flag changes |
| ShelfSystem.ShelfType | building-control-system/libs/map/src/lib/ShelfSystem.tsx:9-34 | exactly STANDARD, PALLET and DISPLAY are known, with capacities 20, 10 and 15 |
| ShelfSystem.ClampSections | building-control-system/libs/map/src/lib/ShelfSystem.tsx:96 | the section count always lies in 1..10 |
| ShelfSystem.ClampRule | building-control-system/libs/map/src/lib/ShelfSystem.tsx:96 | non-numeric, 0 or negative input gives 1, values above 10 give 10, values in range are kept |
| ShelfSystem.ClampIdempotent | building-control-system/libs/map/src/lib/ShelfSystem.tsx:96 | clamping a clamped count changes nothing |
| ShelfSystem.SavedElementRule | building-control-system/libs/map/src/lib/ShelfSystem.tsx:68-86 | saving succeeds exactly for a known shelf type; it keeps every other element field and property and writes type, sections, products and capacity = type capacity x sections |
| ShelfSystem.SavedCapacityRange | building-control-system/libs/map/src/lib/ShelfSystem.tsx:80-96 | a saved capacity lies in 10..200 |
| ShelfSystem.WithProductRule | building-control-system/libs/map/src/lib/ShelfSystem.tsx:101-108 | adding appends exactly one product with the given position and id, the others unchanged |
| ShelfSystem.WithoutProductMembers | building-control-system/libs/map/src/lib/ShelfSystem.tsx:111-113 | removing keeps exactly the products with another id |
| ShelfSystem.WithoutProductOrder | building-control-system/libs/map/src/lib/ShelfSystem.tsx:112 | removal keeps order |
| ShelfSystem.WithoutAbsentProduct | building-control-system/libs/map/src/lib/ShelfSystem.tsx:112 | removing an absent id changes nothing |
| ShelfSystem.ShelfEditor.constructor | building-control-system/libs/map/src/lib/ShelfSystem.tsx:51-54 | the editor starts at STANDARD, one section, no products |
| ShelfSystem.ShelfEditor.Load | building-control-system/libs/map/src/lib/ShelfSystem.tsx:58-65 | properties load with STANDARD, 1 (also for 0) and [] as defaults; no properties leaves the editor as it was |
| ShelfSystem.ShelfEditor.ChangeShelfType | building-control-system/libs/map/src/lib/ShelfSystem.tsx:89-92 | the type changes and the product list empties |
| ShelfSystem.ShelfEditor.ChangeSections | building-control-system/libs/map/src/lib/ShelfSystem.tsx:95-98 | the section count becomes the clamped parse of the input, always in 1..10 |
| ShelfSystem.ShelfEditor.AddProduct | building-control-system/libs/map/src/lib/ShelfSystem.tsx:101-108 | the product list becomes `WithProduct` of the old one |
| ShelfSystem.ShelfEditor.RemoveProduct | building-control-system/libs/map/src/lib/ShelfSystem.tsx:111-113 | the product list becomes `WithoutProduct` of the old one |
| ShelfSystem.ShelfEditor.UpdateShelfProperties | building-control-system/libs/map/src/lib/ShelfSystem.tsx:68-86 | for a known type the feature's element becomes the saved element; for an unknown type the save fails and the feature is unchanged |
| ProductForm.NewProduct | building-control-system/libs/map/src/lib/ProductDetailModal.tsx:24-35 | a fresh product has empty name and code and quantity 1 |
| ProductForm.ErrorsRule | building-control-system/libs/map/src/lib/ProductDetailModal.tsx:38-54 | a name error exactly for a blank name after trimming, a code error likewise, a quantity error exactly for quantity <= 0; no errors exactly when all three pass |
| ProductForm.NewProductErrors | building-control-system/libs/map/src/lib/ProductDetailModal.tsx:24-54 | a fresh product fails on name and code and not on quantity |
| ProductForm.NonNumericQuantityFails | building-control-system/libs/map/src/lib/ProductDetailModal.tsx:49-110 | non-numeric quantity input becomes 0 and fails validation |
| ProductForm.ProductDialog.constructor | building-control-system/libs/map/src/lib/ProductDetailModal.tsx:14-36 | the dialog edits the given product, or a fresh one |
| ProductForm.ProductDialog.ValidateForm | building-control-system/libs/map/src/lib/ProductDetailModal.tsx:38-55 | the stored error map is `Errors(edited)`, and the result is true exactly when name and code are non-blank and quantity is positive |
| ProductForm.ProductDialog.HandleSave | building-control-system/libs/map/src/lib/ProductDetailModal.tsx:57-62 | the product is saved and the dialog hidden only when validation passes |
| ProductForm.ProductDialog.SetName | building-control-system/libs/map/src/lib/ProductDetailModal.tsx:80 | only the name changes |
| ProductForm.ProductDialog.SetCode | building-control-system/libs/map/src/lib/ProductDetailModal.tsx:95 | only the code changes |
| ProductForm.ProductDialog.SetQuantity | building-control-system/libs/map/src/lib/ProductDetailModal.tsx:110 | the quantity becomes `parseInt(input) \|\| 0` |
| ProductForm.ProductDialog.SetColor | building-control-system/libs/map/src/lib/ProductDetailModal.tsx:64-66 | only the colour changes |
| BuildingList.ReplaceRule | building-control-system/libs/map/src/lib/MapComponent.tsx:148-149 | every entry with the id becomes the updated building, others are unchanged, length and order kept, an unmatched id changes nothing |
| BuildingList.ReplaceKeepsIds | building-control-system/libs/map/src/lib/MapComponent.tsx:149 | the list's ids are unchanged by a save |
| BuildingList.SaveBuilding | building-control-system/libs/map/src/lib/MapComponent.tsx:148-151 | after saving nothing is selected |
| BuildingList.SaveIdempotent | building-control-system/libs/map/src/lib/MapComponent.tsx:148-151 | saving the same building twice equals saving it once |
| BuildingList.SelectRule | building-control-system/libs/map/src/lib/MapComponent.tsx:94-137 | a non-empty selection selects the first feature's building; an empty one clears the selection; as the markers carry buildings of the list, the selected building is one of the list |
| Text.ParseIntToString | building-control-system/libs/oplmap/src/utils/wktUtils.ts:12-51 | decimal printing and reading of an integer are inverse |
| Text.ParseLeadingIntRule | building-control-system/libs/map/src/lib/ShelfSystem.tsx:96 | `parseInt` reads back a printed integer, and text starting with a non-space, non-digit, non-sign character reads as NaN |
| Text.SplitJoin | building-control-system/libs/oplmap/src/utils/wktUtils.ts:12-58 | splitting a join on a separator absent from the parts gives the parts back |
| Text.TrimEmptyIffBlank | building-control-system/libs/map/src/lib/ProductDetailModal.tsx:41-45 | `trim` gives the empty string exactly for all-whitespace text |

## Left out

- File reading and DXF text parsing (`FileReader`, `DxfParser`): both importers take the parser's output, a sequence of entity records with a type tag, points and a closed flag. The `vertices || points` fallback is one vertex list.
- The try/catch around each entity and the wrapping of errors into messages: the model's entities cannot throw, and errors are the `DxfError` values `InvalidOrEmpty` and `NoValidElements`.
- IEEE-754 arithmetic: coordinates are exact reals, NaN is an absent value, infinities appear only as the absent bounds.
- DxfInFile.InFileImport: takes only entities with NaN-free coordinates (the `CleanEntity` type), because in the source a NaN coordinate poisons the bounds through `Math.min`/`Math.max` and the model has no NaN arithmetic.
- FloorEditor.UploadDxf: takes only `CleanEntity` entities, for the same reason.
- OpenLayers geometry predicates (`intersectsCoordinate`, `containsExtent`, `getExtent`) are parameters of the model; `fromCircle` and the Circle case of the WKT code are not part of this model.
- Wkt.FromWkt: returns the coordinate lists as parsed; the OpenLayers `LineString` and `Polygon` constructors make every coordinate as long as the first one (so "LINESTRING(1 2, 3 4 5)" reports `[[1,2],[3,4]]`), which the model does not. The round-trip lemmas are unaffected, because printed geometries have coordinates of one length.
- Wkt: numbers are integers or NaN. `Number` is modelled for blank text, optional '+' and integer numerals; any other numeral (decimals, exponents, hexadecimal, "Infinity") reads as NaN. Exponent notation from 1e21 and precision beyond 2^53 are not modelled.
- Wkt.RoundTrip: holds only for printable geometries (every coordinate and every list non-empty), because an empty list prints as text that reads back as 0 (`EmptyPointReadsZero`).
- Text.Upper: `toUpperCase` is modelled on ASCII letters only.
- Rendering, styles, map/view/interaction setup, snapping, modification and the effect lifecycles: UI wiring with no state the model can state.
- The simulated save delay, upload progress flags and sample-data loading: timers and async UI state.
- `Date.now()` ids, random product colours and the element ids the model uses for object identity are parameters chosen by the caller.
- The `onUpdate`, `onSave` and `onHide` callbacks: `onSave` is modelled as the dialog's `savedProducts` list and `onHide` as its `shown` flag; `onUpdate` is not modelled.
- ShelfSystem.ShelfEditor.Load: requires the element's properties to hold a string shelf type, a number of sections and a product list, because the source's untyped properties are not modelled otherwise.
- ShelfSystem.SavedElement: an unknown shelf type is a failed save (`None`), standing for the TypeError the source raises reading `.capacity` of undefined.
- FloorEditor.UpdateElement: requires the current floor index to be in range, because the source reads `updatedFloors[currentFloor].elements` unchecked and would throw.
- FloorEditor.AppendDrawn: requires the current floor index to be in range, because the source reads the current floor's element count unchecked.
- FloorEditor.DrawnCoords: a drawn polygon without rings gives no coordinates; the source would read `undefined` there.
- Text.ParseLeadingInt: reads base 10 only, whereas `parseInt` without a radix also reads a "0x" prefix as hexadecimal; both callers read `type="number"` inputs, which never hold such text.
- The `showDeleteConfirm` dialog flag that `handleDeleteElement` closes: UI state.
- The thickness editor's `parseInt` of the input, which can give NaN, is not modelled: updates carry an integer thickness.
- The draw interaction adding the drawn feature to the vector source after `drawend`: OpenLayers library behaviour.
- The React state closure: handlers are modelled as reading the current state, except in the stale-selection finding, where the closure is the point. The drawend handler reads the element count from the render-time state; the model reads it from the current floor.
- The point-in-polygon wrappers in `olUtils.ts`, `geoUtils.ts`, `map-service.ts` and `Analysis.tsx` duplicate the filter modelled in `MapContext.PointsInside`; they are not part of this model.

## Findings

| source | as written | input that shows it | evidently intended | confidence | as-written member | corrected member |
|---|---|---|---|---|---|---|
| building-control-system/libs/map/src/lib/FloorPlanModal.tsx:479-537 | each property handler (with the selection set at lines 251-267) sets the selection to a spread copy and merges the update into the element identical to the old selection; the stored element is then another new object, so the selection no longer matches any element | select an element, type "A" into its name field, then type "B": the first edit stores name "A", the second finds no element identical to the selection and the floor keeps "A" | the selection follows the element stored in the floor, so every edit reaches it | not executed | FloorEditor.SecondEditLost | FloorEditor.SuccessiveEditsApply |
| building-control-system/libs/map/src/lib/dxfProcessor.ts:124-134 | the loop that the comment at line 124 calls the area of closed polygons runs i from 0 to n - 2 and so omits the closing-edge term x[n-1]*y[0] - x[0]*y[n-1]; a closed polyline that does not repeat its first vertex is measured wrongly and can be dropped as smaller than 0.01 | one LWPOLYLINE flagged closed with vertices (10,0), (0,0), (0,10): the sum is 0, the area test drops it and the import fails with no valid elements, although the triangle has area 50 | the area of the closed ring, including the closing edge, so the triangle becomes room "Oda 1" | not executed | DxfProcessor.ClosedTriangleDropped | DxfProcessor.ClosedTriangleKeptByRingArea |
