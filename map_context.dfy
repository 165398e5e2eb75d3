/**
 * The map-state reducer (`mapReducer`, `initialState`) and the point
 * analysis effect that feeds it (`PolygonAnalyzer` in `libs/map`): points
 * and polygons drawn on the map, the active drawing tool, and the points
 * found inside the last polygon.
 */
module MapContext {
  import opened Wrappers
  import opened OlFeature

  /** The drawing tools. */
  datatype DrawType = DrawPoint | DrawLineString | DrawPolygon | DrawCircle

  /** `MapState`; `activeDrawType` is `None` for `null`. */
  datatype MapState = MapState(
    polygons: seq<Feature>,
    points: seq<Feature>,
    activeDrawType: Option<DrawType>,
    pointsInPolygon: seq<Feature>)

  /** The `type` of an `ADD_FEATURE` payload. */
  datatype AddedKind = AddedPoint | AddedPolygon | AddedOther(tag: string)

  /** The payload of `CLEAR_FEATURES`; `ClearAll` is 'all' and every other value. */
  datatype ClearScope = ClearPoints | ClearPolygons | ClearAll

  /** `MapAction`. */
  datatype MapAction =
    | SetActiveDrawType(drawType: Option<DrawType>)
    | AddFeature(kind: AddedKind, feature: Feature)
    | SetPointsInPolygon(found: seq<Feature>)
    | ClearFeatures(scope: ClearScope)
    | ExportData

  const InitialState := MapState([], [], None, [])

  /** `mapReducer`. */
  function Reduce(s: MapState, a: MapAction): MapState {
    match a
    case SetActiveDrawType(t) => s.(activeDrawType := t)
    case AddFeature(AddedPoint, f) => s.(points := s.points + [f])
    case AddFeature(AddedPolygon, f) => s.(polygons := s.polygons + [f])
    case AddFeature(AddedOther(_), _) => s
    case SetPointsInPolygon(found) => s.(pointsInPolygon := found)
    case ClearFeatures(ClearPoints) => s.(points := [], pointsInPolygon := [])
    case ClearFeatures(ClearPolygons) => s.(polygons := [], pointsInPolygon := [])
    case ClearFeatures(ClearAll) => s.(points := [], polygons := [], pointsInPolygon := [])
    case ExportData => s
  }

  // ---------------------------------------------------------------------
  // One action at a time

  /** The initial state holds no features and no drawing tool. */
  lemma InitialStateEmpty()
    ensures InitialState.points == [] && InitialState.polygons == [] && InitialState.pointsInPolygon == []
    ensures InitialState.activeDrawType.None?
  {
  }

  /** Choosing a tool changes only the tool; the result of an analysis changes only the analysis. */
  lemma SettersTouchOneField(s: MapState, t: Option<DrawType>, found: seq<Feature>)
    ensures Reduce(s, SetActiveDrawType(t)) == s.(activeDrawType := t)
    ensures Reduce(s, SetActiveDrawType(t)).activeDrawType == t
    ensures Reduce(s, SetPointsInPolygon(found)).pointsInPolygon == found
    ensures Reduce(s, SetPointsInPolygon(found)).(pointsInPolygon := s.pointsInPolygon) == s
  {
  }

  /**
   * Adding a point appends it to the points and leaves everything else;
   * adding a polygon appends it to the polygons; any other payload type
   * changes nothing.
   */
  lemma AddFeatureRule(s: MapState, k: AddedKind, f: Feature)
    ensures var r := Reduce(s, AddFeature(k, f));
      && (k == AddedPoint ==>
            |r.points| == |s.points| + 1 && r.points[..|s.points|] == s.points && r.points[|s.points|] == f
            && r.polygons == s.polygons && r.pointsInPolygon == s.pointsInPolygon && r.activeDrawType == s.activeDrawType)
      && (k == AddedPolygon ==>
            |r.polygons| == |s.polygons| + 1 && r.polygons[..|s.polygons|] == s.polygons && r.polygons[|s.polygons|] == f
            && r.points == s.points && r.pointsInPolygon == s.pointsInPolygon && r.activeDrawType == s.activeDrawType)
      && (k.AddedOther? ==> r == s)
  {
    if k == AddedPoint {
      assert (s.points + [f])[..|s.points|] == s.points;
    } else if k == AddedPolygon {
      assert (s.polygons + [f])[..|s.polygons|] == s.polygons;
    }
  }

  /**
   * Clearing points keeps the polygons, clearing polygons keeps the points,
   * clearing all empties both; every clear drops the analysis result and
   * keeps the drawing tool.
   */
  lemma ClearRule(s: MapState, scope: ClearScope)
    ensures var r := Reduce(s, ClearFeatures(scope));
      && r.pointsInPolygon == [] && r.activeDrawType == s.activeDrawType
      && (r.points == [] <==> scope != ClearPolygons || s.points == [])
      && (r.polygons == [] <==> scope != ClearPoints || s.polygons == [])
      && (scope == ClearPoints ==> r.polygons == s.polygons)
      && (scope == ClearPolygons ==> r.points == s.points)
  {
  }

  /** Clearing twice is clearing once. */
  lemma ClearIdempotent(s: MapState, scope: ClearScope)
    ensures Reduce(Reduce(s, ClearFeatures(scope)), ClearFeatures(scope)) == Reduce(s, ClearFeatures(scope))
  {
  }

  /** Export is handled elsewhere: the reducer returns the state unchanged. */
  lemma ExportUnchanged(s: MapState)
    ensures Reduce(s, ExportData) == s
  {
  }

  // ---------------------------------------------------------------------
  // Histories

  /** The state after a sequence of dispatched actions. */
  function Run(s: MapState, acts: seq<MapAction>): MapState
    decreases |acts|
  {
    if acts == [] then s else Reduce(Run(s, acts[..|acts| - 1]), acts[|acts| - 1])
  }

  predicate ClearsPoints(a: MapAction) {
    a.ClearFeatures? && a.scope != ClearPolygons
  }

  /** The actions after the last one that clears points; all of them when none does. */
  function SinceLastPointClear(acts: seq<MapAction>): (r: seq<MapAction>)
    ensures forall i | 0 <= i < |r| :: !ClearsPoints(r[i])
    ensures |r| <= |acts| && r == acts[|acts| - |r|..]
    decreases |acts|
  {
    if acts == [] then []
    else if ClearsPoints(acts[|acts| - 1]) then []
    else SinceLastPointClear(acts[..|acts| - 1]) + [acts[|acts| - 1]]
  }

  /** The features of the point additions among `acts`, in dispatch order. */
  function AddedPoints(acts: seq<MapAction>): seq<Feature>
    decreases |acts|
  {
    if acts == [] then []
    else
      var a := acts[|acts| - 1];
      AddedPoints(acts[..|acts| - 1]) + (if a.AddFeature? && a.kind == AddedPoint then [a.feature] else [])
  }

  /** From the initial state, `points` holds exactly the points added since the last clear, in order. */
  lemma {:induction false} PointsAreAdditionsSinceClear(acts: seq<MapAction>)
    ensures Run(InitialState, acts).points == AddedPoints(SinceLastPointClear(acts))
    decreases |acts|
  {
    if acts != [] {
      var init := acts[..|acts| - 1];
      var a := acts[|acts| - 1];
      PointsAreAdditionsSinceClear(init);
      if !ClearsPoints(a) {
        var since := SinceLastPointClear(init) + [a];
        assert since[..|since| - 1] == SinceLastPointClear(init);
      }
    }
  }

  // ---------------------------------------------------------------------
  // Point analysis

  /**
   * The points of `points`, in order, that have a geometry whose coordinate
   * lies in `polygon`; `intersects` is the geometry's `intersectsCoordinate`.
   */
  function PointsInside(points: seq<Feature>, polygon: Geometry, intersects: (Geometry, seq<real>) -> bool): seq<Feature>
    decreases |points|
  {
    if points == [] then []
    else
      var p := points[|points| - 1];
      PointsInside(points[..|points| - 1], polygon, intersects)
        + (if p.geometry.Some? && intersects(polygon, p.geometry.value.coordinates) then [p] else [])
  }

  /**
   * What the analysis effect dispatches as `SET_POINTS_IN_POLYGON`, or
   * `None` when it dispatches nothing.
   */
  function Analysis(polygons: seq<Feature>, points: seq<Feature>, intersects: (Geometry, seq<real>) -> bool): Option<seq<Feature>> {
    if |polygons| == 0 || |points| == 0 then Some([])
    else
      var g := polygons[|polygons| - 1].geometry;
      if g.None? || g.value.kind != PolygonGeometry then None
      else Some(PointsInside(points, g.value, intersects))
  }

  /** The state once the analysis effect has run. */
  function Analyze(s: MapState, intersects: (Geometry, seq<real>) -> bool): MapState {
    match Analysis(s.polygons, s.points, intersects)
    case None => s
    case Some(found) => Reduce(s, SetPointsInPolygon(found))
  }

  /** A point is found exactly when it has a geometry the polygon contains. */
  lemma {:induction false} PointsInsideMembers(points: seq<Feature>, polygon: Geometry, intersects: (Geometry, seq<real>) -> bool)
    ensures forall p :: p in PointsInside(points, polygon, intersects) <==>
      p in points && p.geometry.Some? && intersects(polygon, p.geometry.value.coordinates)
    decreases |points|
  {
    if points != [] {
      PointsInsideMembers(points[..|points| - 1], polygon, intersects);
      assert points == points[..|points| - 1] + [points[|points| - 1]];
    }
  }

  /** The filter keeps input order: filtering a concatenation concatenates the filtered parts. */
  lemma {:induction false} PointsInsideOrder(a: seq<Feature>, b: seq<Feature>, polygon: Geometry, intersects: (Geometry, seq<real>) -> bool)
    ensures PointsInside(a + b, polygon, intersects) == PointsInside(a, polygon, intersects) + PointsInside(b, polygon, intersects)
    decreases |b|
  {
    if b == [] {
      assert a + b == a;
    } else {
      assert (a + b)[..|a + b| - 1] == a + b[..|b| - 1];
      PointsInsideOrder(a, b[..|b| - 1], polygon, intersects);
    }
  }

  /**
   * With no polygon or no point the result is emptied; otherwise the last
   * polygon must have a polygon geometry for anything to be dispatched.
   */
  lemma AnalysisRule(polygons: seq<Feature>, points: seq<Feature>, intersects: (Geometry, seq<real>) -> bool)
    ensures |polygons| == 0 || |points| == 0 ==> Analysis(polygons, points, intersects) == Some([])
    ensures |polygons| > 0 && |points| > 0 ==>
      var g := polygons[|polygons| - 1].geometry;
      (Analysis(polygons, points, intersects).None? <==> g.None? || g.value.kind != PolygonGeometry)
  {
  }

  /** Polygons drawn before the last one never affect the result. */
  lemma OnlyLastPolygonCounts(earlier1: seq<Feature>, earlier2: seq<Feature>, last: Feature, points: seq<Feature>,
                              intersects: (Geometry, seq<real>) -> bool)
    ensures Analysis(earlier1 + [last], points, intersects) == Analysis(earlier2 + [last], points, intersects)
  {
    assert (earlier1 + [last])[|earlier1|] == last;
    assert (earlier2 + [last])[|earlier2|] == last;
  }

  /**
   * The effect changes only the analysis result; a new result holds only
   * points of the state that have a geometry, and without a dispatch the
   * previous result stands.
   */
  lemma AnalyzeKeepsPoints(s: MapState, intersects: (Geometry, seq<real>) -> bool)
    ensures var r := Analyze(s, intersects);
      && r.(pointsInPolygon := s.pointsInPolygon) == s
      && (Analysis(s.polygons, s.points, intersects).None? ==> r == s)
      && (Analysis(s.polygons, s.points, intersects).Some? ==>
            forall p | p in r.pointsInPolygon :: p in s.points && p.geometry.Some?)
  {
    if Analysis(s.polygons, s.points, intersects).Some? && |s.polygons| > 0 && |s.points| > 0 {
      var g := s.polygons[|s.polygons| - 1].geometry.value;
      PointsInsideMembers(s.points, g, intersects);
    }
  }
}
