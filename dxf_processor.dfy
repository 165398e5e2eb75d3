/**
 * The DXF importer of `dxfProcessor.ts`: the entities the DXF parser
 * produced are measured (a bounding box over LINE, LWPOLYLINE and POLYLINE
 * coordinates), scaled into a 10 x 10 canvas around its centre (5, 5),
 * classified into outer walls, rooms and inner walls, filtered (short lines,
 * tiny rooms) and returned as a new floor.
 *
 * Coordinates are reals. A field the parser left out reads as 0; a field
 * that is NaN is `NotANumber`, and every NaN test of the source is a test
 * for it. `Math.sqrt(dx*dx + dy*dy) < 0.01` is compared squared.
 */
module DxfProcessor {
  import opened Wrappers
  import opened Text
  import opened FloorTypes

  /** One coordinate field as the parser delivers it. */
  datatype RawNum = Missing | NotANumber | Num(v: real)

  datatype RawPoint = RawPoint(x: RawNum, y: RawNum)

  /**
   * A parsed DXF entity: its type tag, the LINE end points
   * (`startPoint`/`x1,y1` and `endPoint`/`x2,y2`), the polyline vertices
   * (`vertices` or `points`) and whether `closed === true`.
   */
  datatype Entity = Entity(kind: string, start: RawPoint, end: RawPoint, vertices: seq<RawPoint>, closed: bool)

  /** The two ways an import fails: no entity list at all, or nothing usable in it. */
  datatype DxfError = InvalidOrEmpty | NoValidElements

  /** A bounding box `minX, minY, maxX, maxY`. */
  datatype Rect = Rect(minX: real, minY: real, maxX: real, maxY: real)

  const CanvasSize: real := 10.0
  const OuterWallColor: string := "#333"
  const InnerWallColor: string := "#666"
  const RoomColor: string := "rgba(200, 200, 200, 0.2)"

  function Min(a: real, b: real): real {
    if a <= b then a else b
  }

  function Max(a: real, b: real): real {
    if a >= b then a else b
  }

  function Abs(v: real): real {
    if v < 0.0 then -v else v
  }

  /** `coord.x ?? coord[0] ?? 0`, with NaN as `None`. */
  function Read(n: RawNum): Option<real> {
    match n
    case Missing => Some(0.0)
    case NotANumber => None
    case Num(v) => Some(v)
  }

  /** The point, when neither coordinate is NaN. */
  function Valid(p: RawPoint): Option<Coord> {
    var x, y := Read(p.x), Read(p.y);
    if x.Some? && y.Some? then Some(Coord(x.value, y.value)) else None
  }

  predicate IsLine(e: Entity) {
    e.kind == "LINE"
  }

  predicate IsPolyline(e: Entity) {
    e.kind == "LWPOLYLINE" || e.kind == "POLYLINE"
  }

  /** The entity types the importer handles; every other type is skipped. */
  predicate Recognised(e: Entity) {
    IsLine(e) || IsPolyline(e)
  }

  /** The points an entity contributes to the bounding box. */
  function RawPoints(e: Entity): seq<RawPoint> {
    if IsLine(e) then [e.start, e.end]
    else if IsPolyline(e) then e.vertices
    else []
  }

  // ---------------------------------------------------------------------
  // Bounding box

  predicate Ordered(r: Rect) {
    r.minX <= r.maxX && r.minY <= r.maxY
  }

  predicate Covers(r: Rect, c: Coord) {
    r.minX <= c.x <= r.maxX && r.minY <= c.y <= r.maxY
  }

  predicate OrderedBox(box: Option<Rect>) {
    box.None? || Ordered(box.value)
  }

  /** One step of the bounds pass; `None` stands for the initial infinities. */
  function Extend(box: Option<Rect>, p: RawPoint): (r: Option<Rect>)
    requires OrderedBox(box)
    ensures OrderedBox(r)
  {
    match Valid(p)
    case None => box
    case Some(c) =>
      match box
      case None => Some(Rect(c.x, c.y, c.x, c.y))
      case Some(b) => Some(Rect(Min(b.minX, c.x), Min(b.minY, c.y), Max(b.maxX, c.x), Max(b.maxY, c.y)))
  }

  function ExtendAll(box: Option<Rect>, ps: seq<RawPoint>): (r: Option<Rect>)
    requires OrderedBox(box)
    ensures OrderedBox(r)
    decreases |ps|
  {
    if ps == [] then box else Extend(ExtendAll(box, ps[..|ps| - 1]), ps[|ps| - 1])
  }

  /** The bounds after the first pass over `es`. */
  function BoxOf(es: seq<Entity>): (r: Option<Rect>)
    ensures OrderedBox(r)
    decreases |es|
  {
    if es == [] then None else ExtendAll(BoxOf(es[..|es| - 1]), RawPoints(es[|es| - 1]))
  }

  /** The source's fallback for bounds left infinite: (0, 0) to (10, 10). */
  function Fallback(box: Option<Rect>): Rect {
    match box
    case None => Rect(0.0, 0.0, 10.0, 10.0)
    case Some(r) => r
  }

  /** `v || 1` on a number. */
  function OrOne(v: real): real {
    if v == 0.0 then 1.0 else v
  }

  /** `Math.min(10 / (width || 1), 10 / (height || 1))`. */
  function ScaleOf(r: Rect): real {
    Min(CanvasSize / OrOne(r.maxX - r.minX), CanvasSize / OrOne(r.maxY - r.minY))
  }

  /** One axis of `normalizeCoord`: relative to the centre, scaled, shifted to 5. */
  function Scaled(v: real, centre: real, scale: real): real {
    (v - centre) * scale + 5.0
  }

  /** `normalizeCoord`: centre-relative, scaled, shifted to (5, 5); `None` for NaN. */
  function Normalise(r: Rect, scale: real, p: RawPoint): Option<Coord> {
    match Valid(p)
    case None => None
    case Some(c) =>
      var centerX := r.minX + (r.maxX - r.minX) / 2.0;
      var centerY := r.minY + (r.maxY - r.minY) / 2.0;
      Some(Coord(Scaled(c.x, centerX, scale), Scaled(c.y, centerY, scale)))
  }

  // ---------------------------------------------------------------------
  // Classification of one entity

  /** `Math.sqrt(dx*dx + dy*dy) < 0.01`, squared. */
  predicate TooShort(a: Coord, b: Coord) {
    var dx := b.x - a.x;
    var dy := b.y - a.y;
    dx * dx + dy * dy < 0.0001
  }

  /** The polyline's vertices normalised, NaN vertices dropped, order kept. */
  function NormaliseAll(r: Rect, scale: real, vs: seq<RawPoint>): (cs: seq<Coord>)
    ensures |cs| <= |vs|
    decreases |vs|
  {
    if vs == [] then []
    else
      NormaliseAll(r, scale, vs[..|vs| - 1])
      + match Normalise(r, scale, vs[|vs| - 1]) case None => [] case Some(c) => [c]
  }

  /** More than two vertices, and either the `closed` flag or first and last within 0.1 on each axis. */
  predicate IsClosed(vs: seq<Coord>, closedFlag: bool) {
    |vs| > 2 &&
    (closedFlag || (Abs(vs[0].x - vs[|vs| - 1].x) < 0.1 && Abs(vs[0].y - vs[|vs| - 1].y) < 0.1))
  }

  function Cross(a: Coord, b: Coord): real {
    a.x * b.y - b.x * a.y
  }

  /** `sum of x_i * y_(i+1) - x_(i+1) * y_i` for i from 0 to n - 2: no term for the closing edge. */
  function ShoelaceSum(vs: seq<Coord>): real
    decreases |vs|
  {
    if |vs| < 2 then 0.0
    else ShoelaceSum(vs[..|vs| - 1]) + Cross(vs[|vs| - 2], vs[|vs| - 1])
  }

  /** The area the importer tests: `Math.abs(sum) / 2`. */
  function Area(vs: seq<Coord>): real {
    Abs(ShoelaceSum(vs)) / 2.0
  }

  function RoomName(rooms: nat): string {
    "Oda " + NatToString(rooms + 1)
  }

  function OuterWallElement(id: nat, a: Coord, b: Coord): Element {
    Element(id, OuterWall, [a, b], false, None, Some(OuterWallColor), Some(5), None)
  }

  function RoomElement(id: nat, vs: seq<Coord>, rooms: nat): Element
    requires |vs| > 0
  {
    Element(id, Room, vs + [vs[0]], true, Some(RoomName(rooms)), Some(RoomColor), None, None)
  }

  function InnerWallElement(id: nat, vs: seq<Coord>): Element {
    Element(id, InnerWall, vs, false, None, Some(InnerWallColor), Some(3), None)
  }

  /**
   * What the second pass pushes for one entity, given the bounds, the scale,
   * the number of rooms pushed so far and the id of the new element.
   */
  function EntityElement(e: Entity, r: Rect, scale: real, rooms: nat, id: nat): (el: Option<Element>)
    ensures el.Some? ==> el.value.id == id
    ensures el.Some? && el.value.kind == Room ==> el.value.name == Some(RoomName(rooms))
  {
    if IsLine(e) then
      match (Normalise(r, scale, e.start), Normalise(r, scale, e.end))
      case (Some(a), Some(b)) =>
        if TooShort(a, b) then None else Some(OuterWallElement(id, a, b))
      case _ => None
    else if IsPolyline(e) then
      var vs := NormaliseAll(r, scale, e.vertices);
      if |vs| <= 1 then None
      else if IsClosed(vs, e.closed) then
        if Area(vs) < 0.01 then None else Some(RoomElement(id, vs, rooms))
      else Some(InnerWallElement(id, vs))
    else None
  }

  /** The elements the second pass has pushed after the entities `es`, in entity order. */
  function ElementsOf(es: seq<Entity>, r: Rect, scale: real, firstId: nat): (els: seq<Element>)
    ensures |els| <= |es|
    decreases |es|
  {
    if es == [] then []
    else Pushed(ElementsOf(es[..|es| - 1], r, scale, firstId), es[|es| - 1], r, scale, firstId)
  }

  /** `elements` after the second pass has looked at `e`: its element, numbered and counted from `prev`, is pushed if there is one. */
  function Pushed(prev: seq<Element>, e: Entity, r: Rect, scale: real, firstId: nat): (els: seq<Element>)
    ensures prev <= els && |els| <= |prev| + 1
  {
    match EntityElement(e, r, scale, CountRooms(prev), firstId + |prev|)
    case None => prev
    case Some(el) => prev + [el]
  }

  /** One more entity extends the elements of the prefix before it by that entity's element, if any. */
  lemma ElementsOfStep(es: seq<Entity>, i: nat, r: Rect, scale: real, firstId: nat)
    requires i < |es|
    ensures ElementsOf(es[..i + 1], r, scale, firstId) == Pushed(ElementsOf(es[..i], r, scale, firstId), es[i], r, scale, firstId)
  {
    assert es[..i + 1][..i] == es[..i];
  }

  /** `(${file.name.split('.')[0]})`. */
  function LevelLabel(fileName: string): string {
    "(" + BeforeFirst(fileName, '.') + ")"
  }

  /** The whole import: `parsed` is `dxf.entities`, `None` when the parser gave none. */
  function Import(fileName: string, parsed: Option<seq<Entity>>, firstId: nat): Result<Floor, DxfError> {
    match parsed
    case None => Failure(InvalidOrEmpty)
    case Some(es) =>
      var r := Fallback(BoxOf(es));
      var scale := ScaleOf(r);
      var els := ElementsOf(es, r, scale, firstId);
      if |els| == 0 then Failure(NoValidElements) else Success(Floor(LevelLabel(fileName), scale, els))
  }

  // ---------------------------------------------------------------------
  // The importer as the source runs it

  /** The first pass: widen the bounds by every non-NaN point of every handled entity. */
  method ComputeBounds(entities: seq<Entity>) returns (box: Option<Rect>)
    ensures box == BoxOf(entities)
  {
    box := None;
    for i := 0 to |entities|
      invariant box == BoxOf(entities[..i])
    {
      var e := entities[i];
      var pts := RawPoints(e);
      ghost var before := box;
      for j := 0 to |pts|
        invariant box == ExtendAll(before, pts[..j])
      {
        var p := pts[j];
        match Valid(p) {
          case None =>
          case Some(c) =>
            if box.None? {
              box := Some(Rect(c.x, c.y, c.x, c.y));
            } else {
              var b := box.value;
              box := Some(Rect(Min(b.minX, c.x), Min(b.minY, c.y), Max(b.maxX, c.x), Max(b.maxY, c.y)));
            }
        }
        assert pts[..j + 1][..j] == pts[..j];
      }
      assert pts[..|pts|] == pts;
      assert entities[..i + 1][..i] == entities[..i];
    }
    assert entities[..|entities|] == entities;
  }

  /** The area loop of a closed polyline. */
  method PolygonArea(vs: seq<Coord>) returns (area: real)
    requires |vs| > 0
    ensures area == Area(vs)
  {
    area := 0.0;
    for i := 0 to |vs| - 1
      invariant area == ShoelaceSum(vs[..i + 1])
    {
      area := area + (vs[i].x * vs[i + 1].y - vs[i + 1].x * vs[i].y);
      assert vs[..i + 2][..i + 1] == vs[..i + 1];
    }
    assert vs[..|vs|] == vs;
    area := Abs(area) / 2.0;
  }

  /** The body of the second pass for one entity. */
  method ProcessEntity(e: Entity, r: Rect, scale: real, rooms: nat, id: nat) returns (el: Option<Element>)
    ensures el == EntityElement(e, r, scale, rooms, id)
  {
    el := None;
    if !Recognised(e) {
      return;
    }
    if IsLine(e) {
      var start := Normalise(r, scale, e.start);
      var end := Normalise(r, scale, e.end);
      if start.None? || end.None? {
        return;
      }
      var dx := end.value.x - start.value.x;
      var dy := end.value.y - start.value.y;
      if dx * dx + dy * dy < 0.0001 {
        return;
      }
      el := Some(OuterWallElement(id, start.value, end.value));
    } else {
      var vertices := NormaliseAll(r, scale, e.vertices);
      if |vertices| > 1 {
        var isClosed := IsClosed(vertices, e.closed);
        var area := 0.0;
        if isClosed && |vertices| > 2 {
          area := PolygonArea(vertices);
        }
        if isClosed && area < 0.01 {
          return;
        }
        el := Some(if isClosed then RoomElement(id, vertices, rooms) else InnerWallElement(id, vertices));
      }
    }
  }

  /** One iteration of the second pass: push the element of `e`, if it yields one. */
  method Push(elements: seq<Element>, e: Entity, r: Rect, scale: real, firstId: nat) returns (next: seq<Element>)
    ensures next == Pushed(elements, e, r, scale, firstId)
  {
    var el := ProcessEntity(e, r, scale, CountRooms(elements), firstId + |elements|);
    next := elements;
    if el.Some? {
      next := elements + [el.value];
    }
  }

  /** The second pass: push the element of every entity that yields one. */
  method SecondPass(entities: seq<Entity>, r: Rect, scale: real, firstId: nat) returns (elements: seq<Element>)
    ensures elements == ElementsOf(entities, r, scale, firstId)
  {
    elements := [];
    for i := 0 to |entities|
      invariant elements == ElementsOf(entities[..i], r, scale, firstId)
    {
      elements := Push(elements, entities[i], r, scale, firstId);
      ElementsOfStep(entities, i, r, scale, firstId);
    }
    assert entities[..|entities|] == entities;
  }

  /** `processDxfFile` from the parsed entities on. */
  method ProcessDxfFile(fileName: string, parsed: Option<seq<Entity>>, firstId: nat)
    returns (result: Result<Floor, DxfError>)
    ensures result == Import(fileName, parsed, firstId)
  {
    if parsed.None? {
      return Failure(InvalidOrEmpty);
    }
    var entities := parsed.value;
    var box := ComputeBounds(entities);
    var minX, minY, maxX, maxY := 0.0, 0.0, 10.0, 10.0;
    if box.Some? {
      minX, minY, maxX, maxY := box.value.minX, box.value.minY, box.value.maxX, box.value.maxY;
    }
    var r := Rect(minX, minY, maxX, maxY);
    assert r == Fallback(BoxOf(entities));
    var scale := Min(CanvasSize / OrOne(maxX - minX), CanvasSize / OrOne(maxY - minY));
    assert scale == ScaleOf(r);
    var elements := SecondPass(entities, r, scale, firstId);
    if |elements| == 0 {
      return Failure(NoValidElements);
    }
    return Success(Floor(LevelLabel(fileName), scale, elements));
  }

  // ---------------------------------------------------------------------
  // Bounds

  lemma {:induction false} ExtendAllKeeps(box: Option<Rect>, ps: seq<RawPoint>, c: Coord)
    requires OrderedBox(box) && box.Some? && Covers(box.value, c)
    ensures ExtendAll(box, ps).Some? && Covers(ExtendAll(box, ps).value, c)
    decreases |ps|
  {
    if ps != [] {
      ExtendAllKeeps(box, ps[..|ps| - 1], c);
    }
  }

  lemma {:induction false} ExtendAllCovers(box: Option<Rect>, ps: seq<RawPoint>, j: nat)
    requires OrderedBox(box) && j < |ps| && Valid(ps[j]).Some?
    ensures ExtendAll(box, ps).Some? && Covers(ExtendAll(box, ps).value, Valid(ps[j]).value)
    decreases |ps|
  {
    var n := |ps| - 1;
    if j < n {
      ExtendAllCovers(box, ps[..n], j);
      assert ps[..n][j] == ps[j];
      ExtendAllKeeps(ExtendAll(box, ps[..n]), [ps[n]], Valid(ps[j]).value);
      assert [ps[n]][..0] == [];
    }
  }

  /** Every non-NaN point of a LINE, LWPOLYLINE or POLYLINE entity lies inside the bounds of the first pass. */
  lemma {:induction false} BoundsCoverEveryPoint(es: seq<Entity>, k: nat, j: nat)
    requires k < |es| && j < |RawPoints(es[k])| && Valid(RawPoints(es[k])[j]).Some?
    ensures BoxOf(es).Some? && Covers(BoxOf(es).value, Valid(RawPoints(es[k])[j]).value)
    decreases |es|
  {
    var n := |es| - 1;
    var c := Valid(RawPoints(es[k])[j]).value;
    if k == n {
      ExtendAllCovers(BoxOf(es[..n]), RawPoints(es[n]), j);
    } else {
      assert es[..n][k] == es[k];
      BoundsCoverEveryPoint(es[..n], k, j);
      ExtendAllKeeps(BoxOf(es[..n]), RawPoints(es[n]), c);
    }
  }

  predicate NoUsablePoint(es: seq<Entity>) {
    forall k, j | 0 <= k < |es| && 0 <= j < |RawPoints(es[k])| :: Valid(RawPoints(es[k])[j]).None?
  }

  lemma {:induction false} ExtendAllNone(ps: seq<RawPoint>)
    requires forall j | 0 <= j < |ps| :: Valid(ps[j]).None?
    ensures ExtendAll(None, ps) == None
    decreases |ps|
  {
    if ps != [] {
      ExtendAllNone(ps[..|ps| - 1]);
    }
  }

  /**
   * The bounds stay infinite, and fall back to (0, 0)-(10, 10) with scale
   * 1, exactly when no handled entity has a point without NaN.
   */
  lemma {:induction false} FallbackExactlyWithoutPoints(es: seq<Entity>)
    ensures BoxOf(es).None? <==> NoUsablePoint(es)
    ensures NoUsablePoint(es) ==> Fallback(BoxOf(es)) == Rect(0.0, 0.0, 10.0, 10.0) && ScaleOf(Fallback(BoxOf(es))) == 1.0
    decreases |es|
  {
    if NoUsablePoint(es) {
      if es != [] {
        var n := |es| - 1;
        assert NoUsablePoint(es[..n]) by {
          forall k, j | 0 <= k < n && 0 <= j < |RawPoints(es[..n][k])|
            ensures Valid(RawPoints(es[..n][k])[j]).None?
          {
            assert es[..n][k] == es[k];
          }
        }
        FallbackExactlyWithoutPoints(es[..n]);
        ExtendAllNone(RawPoints(es[n]));
      }
    } else {
      var k, j :| 0 <= k < |es| && 0 <= j < |RawPoints(es[k])| && Valid(RawPoints(es[k])[j]).Some?;
      BoundsCoverEveryPoint(es, k, j);
    }
  }

  /** The scale of ordered bounds is positive. */
  lemma ScalePositive(r: Rect)
    requires Ordered(r)
    ensures ScaleOf(r) > 0.0
  {
  }

  /** One axis of `normalizeCoord`: a value inside the bounds lands in [0, 10]. */
  lemma AxisInCanvas(lo: real, hi: real, centre: real, v: real, scale: real)
    requires lo <= v <= hi && centre == lo + (hi - lo) / 2.0
    requires 0.0 < scale <= CanvasSize / OrOne(hi - lo)
    ensures 0.0 <= Scaled(v, centre, scale) <= 10.0
  {
    var w := hi - lo;
    var d := v - centre;
    assert Scaled(v, centre, scale) == d * scale + 5.0;
    if w == 0.0 {
      assert d == 0.0;
    } else {
      var q := 10.0 / w;
      assert q * w == 10.0;
      MulMonotone(scale, q, w);
      assert -w / 2.0 <= d <= w / 2.0;
      MulMonotone(d, w / 2.0, scale);
      MulMonotone(-w / 2.0, d, scale);
      assert scale * w <= 10.0;
      assert (w / 2.0) * scale == (scale * w) / 2.0;
      assert (w / 2.0) * scale <= 5.0;
      assert (-w / 2.0) * scale == -((w / 2.0) * scale);
      assert -5.0 <= d * scale <= 5.0;
    }
  }

  /** Multiplying by a non-negative factor keeps an inequality. */
  lemma MulMonotone(a: real, b: real, c: real)
    requires a <= b && 0.0 <= c
    ensures a * c <= b * c
  {
    assert b * c - a * c == (b - a) * c;
  }

  /** A point inside ordered bounds is normalised into the 10 x 10 canvas. */
  lemma CoveredInCanvas(r: Rect, p: RawPoint)
    requires Ordered(r) && Valid(p).Some? && Covers(r, Valid(p).value)
    ensures Normalise(r, ScaleOf(r), p).Some? && InCanvas(Normalise(r, ScaleOf(r), p).value)
  {
    var c := Valid(p).value;
    var s := ScaleOf(r);
    ScalePositive(r);
    assert s <= CanvasSize / OrOne(r.maxX - r.minX) && s <= CanvasSize / OrOne(r.maxY - r.minY);
    AxisInCanvas(r.minX, r.maxX, r.minX + (r.maxX - r.minX) / 2.0, c.x, s);
    AxisInCanvas(r.minY, r.maxY, r.minY + (r.maxY - r.minY) / 2.0, c.y, s);
  }

  /** Every non-NaN point of a handled entity is normalised into the 10 x 10 canvas. */
  lemma NormaliseInCanvas(es: seq<Entity>, k: nat, j: nat)
    requires k < |es| && j < |RawPoints(es[k])| && Valid(RawPoints(es[k])[j]).Some?
    ensures var r := Fallback(BoxOf(es));
      var c := Normalise(r, ScaleOf(r), RawPoints(es[k])[j]);
      c.Some? && InCanvas(c.value)
  {
    BoundsCoverEveryPoint(es, k, j);
    CoveredInCanvas(BoxOf(es).value, RawPoints(es[k])[j]);
  }

  /** The centre of the bounds maps to the centre (5, 5) of the canvas. */
  lemma CentreMapsToMiddle(r: Rect, scale: real)
    ensures Normalise(r, scale, RawPoint(Num(r.minX + (r.maxX - r.minX) / 2.0), Num(r.minY + (r.maxY - r.minY) / 2.0)))
         == Some(Coord(5.0, 5.0))
  {
    var cx := r.minX + (r.maxX - r.minX) / 2.0;
    var cy := r.minY + (r.maxY - r.minY) / 2.0;
    assert Scaled(cx, cx, scale) == 5.0 && Scaled(cy, cy, scale) == 5.0;
  }

  // ---------------------------------------------------------------------
  // Classification

  /** Entities of any other type yield nothing and add nothing to the bounds. */
  lemma OtherEntitiesIgnored(e: Entity, r: Rect, scale: real, rooms: nat, id: nat)
    requires !Recognised(e)
    ensures RawPoints(e) == [] && EntityElement(e, r, scale, rooms, id) == None
  {
  }

  /**
   * A LINE yields one outer wall `[start, end]` of thickness 5 and colour
   * #333 unless an end point is NaN or it is shorter than 0.01.
   */
  lemma LineRule(e: Entity, r: Rect, scale: real, rooms: nat, id: nat)
    requires IsLine(e)
    ensures var el := EntityElement(e, r, scale, rooms, id);
      var a := Normalise(r, scale, e.start);
      var b := Normalise(r, scale, e.end);
      && (el.Some? <==> a.Some? && b.Some? && !TooShort(a.value, b.value))
      && (el.Some? ==>
            && el.value.kind == OuterWall && el.value.coords == [a.value, b.value]
            && el.value.thickness == Some(5) && el.value.color == Some("#333")
            && el.value.name == None && el.value.id == id)
  {
  }

  /**
   * A polyline with fewer than two usable vertices yields nothing; a closed
   * one yields a room (closed by repeating its first vertex, named
   * "Oda k") unless its area is below 0.01; an open one yields an inner
   * wall of thickness 3 without a name.
   */
  lemma PolylineRule(e: Entity, r: Rect, scale: real, rooms: nat, id: nat)
    requires IsPolyline(e)
    ensures var el := EntityElement(e, r, scale, rooms, id);
      var vs := NormaliseAll(r, scale, e.vertices);
      && (|vs| < 2 ==> el.None?)
      && (|vs| >= 2 && IsClosed(vs, e.closed) ==>
            && (el.Some? <==> Area(vs) >= 0.01)
            && (el.Some? ==>
                  && el.value.kind == Room && el.value.coords == vs + [vs[0]]
                  && el.value.name == Some("Oda " + NatToString(rooms + 1))
                  && el.value.thickness == None))
      && (|vs| >= 2 && !IsClosed(vs, e.closed) ==>
            && el.Some? && el.value.kind == InnerWall && el.value.coords == vs
            && el.value.thickness == Some(3) && el.value.name == None)
  {
  }

  /** Closure needs more than two vertices: a two-vertex polyline is always an inner wall. */
  lemma TwoVertexPolylineIsOpen(vs: seq<Coord>, closedFlag: bool)
    requires |vs| == 2
    ensures !IsClosed(vs, closedFlag)
  {
  }

  // ---------------------------------------------------------------------
  // The whole import

  predicate PointsInCanvas(e: Entity, r: Rect, scale: real) {
    forall j | 0 <= j < |RawPoints(e)| ::
      Normalise(r, scale, RawPoints(e)[j]).None? || InCanvas(Normalise(r, scale, RawPoints(e)[j]).value)
  }

  lemma {:induction false} NormaliseAllInCanvas(r: Rect, scale: real, vs: seq<RawPoint>)
    requires forall j | 0 <= j < |vs| :: Normalise(r, scale, vs[j]).None? || InCanvas(Normalise(r, scale, vs[j]).value)
    ensures forall i | 0 <= i < |NormaliseAll(r, scale, vs)| :: InCanvas(NormaliseAll(r, scale, vs)[i])
    decreases |vs|
  {
    if vs != [] {
      var n := |vs| - 1;
      forall j | 0 <= j < n
        ensures Normalise(r, scale, vs[..n][j]).None? || InCanvas(Normalise(r, scale, vs[..n][j]).value)
      {
        assert vs[..n][j] == vs[j];
      }
      NormaliseAllInCanvas(r, scale, vs[..n]);
    }
  }

  lemma EntityElementInCanvas(e: Entity, r: Rect, scale: real, rooms: nat, id: nat)
    requires PointsInCanvas(e, r, scale)
    ensures var el := EntityElement(e, r, scale, rooms, id);
      el.Some? ==> forall j | 0 <= j < |el.value.coords| :: InCanvas(el.value.coords[j])
  {
    if IsLine(e) {
      assert RawPoints(e)[0] == e.start && RawPoints(e)[1] == e.end;
    } else if IsPolyline(e) {
      assert RawPoints(e) == e.vertices;
      NormaliseAllInCanvas(r, scale, e.vertices);
    }
  }

  lemma {:induction false} ElementsOfInCanvas(es: seq<Entity>, r: Rect, scale: real, firstId: nat)
    requires forall k | 0 <= k < |es| :: PointsInCanvas(es[k], r, scale)
    ensures AllInCanvas(ElementsOf(es, r, scale, firstId))
    decreases |es|
  {
    if es != [] {
      var n := |es| - 1;
      forall k | 0 <= k < n ensures PointsInCanvas(es[..n][k], r, scale) {
        assert es[..n][k] == es[k];
      }
      ElementsOfInCanvas(es[..n], r, scale, firstId);
      var prev := ElementsOf(es[..n], r, scale, firstId);
      var el := EntityElement(es[n], r, scale, CountRooms(prev), firstId + |prev|);
      EntityElementInCanvas(es[n], r, scale, CountRooms(prev), firstId + |prev|);
      var els := ElementsOf(es, r, scale, firstId);
      assert els == if el.Some? then prev + [el.value] else prev;
      forall i, j | 0 <= i < |els| && 0 <= j < |els[i].coords| ensures InCanvas(els[i].coords[j]) {
        if i < |prev| {
          assert els[i] == prev[i];
        }
      }
    }
  }

  /** Every coordinate of every imported element lies in the 10 x 10 canvas. */
  lemma ImportInCanvas(fileName: string, parsed: Option<seq<Entity>>, firstId: nat)
    ensures var result := Import(fileName, parsed, firstId);
      result.Success? ==> AllInCanvas(result.value.elements)
  {
    if parsed.Some? {
      var es := parsed.value;
      var r := Fallback(BoxOf(es));
      forall k | 0 <= k < |es| ensures PointsInCanvas(es[k], r, ScaleOf(r)) {
        forall j | 0 <= j < |RawPoints(es[k])| && Valid(RawPoints(es[k])[j]).Some?
          ensures InCanvas(Normalise(r, ScaleOf(r), RawPoints(es[k])[j]).value)
        {
          NormaliseInCanvas(es, k, j);
        }
      }
      ElementsOfInCanvas(es, r, ScaleOf(r), firstId);
    }
  }

  /** The elements come in entity order with consecutive ids from `firstId`. */
  lemma {:induction false} ConsecutiveIds(es: seq<Entity>, r: Rect, scale: real, firstId: nat)
    ensures forall i | 0 <= i < |ElementsOf(es, r, scale, firstId)| :: ElementsOf(es, r, scale, firstId)[i].id == firstId + i
    decreases |es|
  {
    if es != [] {
      var n := |es| - 1;
      ConsecutiveIds(es[..n], r, scale, firstId);
      var prev := ElementsOf(es[..n], r, scale, firstId);
      var el := EntityElement(es[n], r, scale, CountRooms(prev), firstId + |prev|);
      var els := ElementsOf(es, r, scale, firstId);
      assert els == if el.Some? then prev + [el.value] else prev;
      forall i | 0 <= i < |els| ensures els[i].id == firstId + i {
        if i < |prev| {
          assert els[i] == prev[i] && prev[i].id == firstId + i;
        } else {
          assert el.Some? && els[i] == el.value;
        }
      }
    }
  }

  /** Every room is named "Oda k" where k - 1 rooms come before it. */
  predicate RoomsNumbered(els: seq<Element>) {
    forall i | 0 <= i < |els| && els[i].kind == Room :: els[i].name == Some(RoomName(CountRooms(els[..i])))
  }

  /** The k-th room of the import is named "Oda k". */
  lemma {:induction false} RoomsNumberedInOrder(es: seq<Entity>, r: Rect, scale: real, firstId: nat)
    ensures RoomsNumbered(ElementsOf(es, r, scale, firstId))
    decreases |es|
  {
    if es != [] {
      var n := |es| - 1;
      RoomsNumberedInOrder(es[..n], r, scale, firstId);
      var prev := ElementsOf(es[..n], r, scale, firstId);
      var el := EntityElement(es[n], r, scale, CountRooms(prev), firstId + |prev|);
      var els := ElementsOf(es, r, scale, firstId);
      assert els == if el.Some? then prev + [el.value] else prev;
      forall i | 0 <= i < |els| && els[i].kind == Room
        ensures els[i].name == Some(RoomName(CountRooms(els[..i])))
      {
        if i < |prev| {
          assert els[i] == prev[i] && els[..i] == prev[..i];
        } else {
          assert els[i] == el.value && els[..i] == prev;
        }
      }
    }
  }

  /**
   * The import fails without an entity list, and exactly when the second pass
   * pushes no element; otherwise the floor holds the computed scale and
   * elements.
   */
  lemma ImportOutcome(fileName: string, parsed: Option<seq<Entity>>, firstId: nat)
    ensures var result := Import(fileName, parsed, firstId);
      && (parsed.None? ==> result == Failure(InvalidOrEmpty))
      && (result.Success? ==>
            && |result.value.elements| > 0
            && result.value.level == "(" + BeforeFirst(fileName, '.') + ")"
            && result.value.scale > 0.0)
      && (parsed.Some? && NoUsablePoint(parsed.value) ==> result == Failure(NoValidElements))
      && (parsed.Some? ==>
            var r := Fallback(BoxOf(parsed.value));
            var els := ElementsOf(parsed.value, r, ScaleOf(r), firstId);
            && (result == Failure(NoValidElements) <==> els == [])
            && (result.Success? ==> result.value.elements == els && result.value.scale == ScaleOf(r)))
  {
    if parsed.Some? {
      var es := parsed.value;
      ScalePositive(Fallback(BoxOf(es)));
      if NoUsablePoint(es) {
        FallbackExactlyWithoutPoints(es);
        NothingWithoutPoints(es, Rect(0.0, 0.0, 10.0, 10.0), 1.0, firstId);
      }
    }
  }

  /** The imported floor's elements have consecutive ids from `firstId`, and its k-th room is named "Oda k". */
  lemma ImportedFloorNumbered(fileName: string, parsed: Option<seq<Entity>>, firstId: nat)
    ensures var result := Import(fileName, parsed, firstId);
      result.Success? ==>
        && (forall i | 0 <= i < |result.value.elements| :: result.value.elements[i].id == firstId + i)
        && RoomsNumbered(result.value.elements)
  {
    if parsed.Some? {
      var r := Fallback(BoxOf(parsed.value));
      ImportOutcome(fileName, parsed, firstId);
      ConsecutiveIds(parsed.value, r, ScaleOf(r), firstId);
      RoomsNumberedInOrder(parsed.value, r, ScaleOf(r), firstId);
    }
  }

  lemma {:induction false} NormaliseAllNone(r: Rect, scale: real, vs: seq<RawPoint>)
    requires forall j | 0 <= j < |vs| :: Valid(vs[j]).None?
    ensures NormaliseAll(r, scale, vs) == []
    decreases |vs|
  {
    if vs != [] {
      NormaliseAllNone(r, scale, vs[..|vs| - 1]);
    }
  }

  lemma {:induction false} NothingWithoutPoints(es: seq<Entity>, r: Rect, scale: real, firstId: nat)
    requires NoUsablePoint(es)
    ensures ElementsOf(es, r, scale, firstId) == []
    decreases |es|
  {
    if es != [] {
      var n := |es| - 1;
      assert NoUsablePoint(es[..n]) by {
        forall k, j | 0 <= k < n && 0 <= j < |RawPoints(es[..n][k])|
          ensures Valid(RawPoints(es[..n][k])[j]).None?
        {
          assert es[..n][k] == es[k];
        }
      }
      NothingWithoutPoints(es[..n], r, scale, firstId);
      var e := es[n];
      if IsLine(e) {
        assert Valid(RawPoints(e)[0]).None?;
      } else if IsPolyline(e) {
        assert RawPoints(e) == e.vertices;
        NormaliseAllNone(r, scale, e.vertices);
      }
    }
  }

  /** A file whose only entity is a zero-length LINE imports nothing and fails. */
  lemma DegenerateLineFails(fileName: string, p: RawPoint, firstId: nat)
    ensures Import(fileName, Some([Entity("LINE", p, p, [], false)]), firstId) == Failure(NoValidElements)
  {
    var es := [Entity("LINE", p, p, [], false)];
    var r := Fallback(BoxOf(es));
    assert es[..0] == [];
    var e := EntityElement(es[0], r, ScaleOf(r), 0, firstId);
    assert e.None?;
    assert ElementsOf(es, r, ScaleOf(r), firstId) == [];
  }

  // ---------------------------------------------------------------------
  // The area test

  /** Partial sums of the cyclic shoelace formula, indices taken mod n. */
  function CyclicPartial(vs: seq<Coord>, k: nat): real
    requires k <= |vs|
  {
    if k == 0 then 0.0 else CyclicPartial(vs, k - 1) + Cross(vs[k - 1], vs[k % |vs|])
  }

  /** The shoelace sum of a ring with indices taken mod n: twice the signed area of the polygon. */
  function CyclicSum(vs: seq<Coord>): real {
    CyclicPartial(vs, |vs|)
  }

  lemma {:induction false} CyclicPartialIsShoelace(vs: seq<Coord>, k: nat)
    requires k < |vs|
    ensures CyclicPartial(vs, k) == ShoelaceSum(vs[..k + 1])
  {
    if k > 0 {
      CyclicPartialIsShoelace(vs, k - 1);
      assert k % |vs| == k;
      var t := vs[..k + 1];
      assert t[..k] == vs[..k] && t[k - 1] == vs[k - 1] && t[k] == vs[k];
      assert ShoelaceSum(t) == ShoelaceSum(t[..k]) + Cross(t[k - 1], t[k]);
    }
  }

  /**
   * The importer's sum is the cyclic sum without the closing edge from the
   * last vertex back to the first; the two agree when the last vertex
   * repeats the first, and the ring a room stores has the cyclic sum.
   */
  lemma ShoelaceMissesClosingEdge(vs: seq<Coord>)
    requires |vs| >= 2
    ensures CyclicSum(vs) == ShoelaceSum(vs) + Cross(vs[|vs| - 1], vs[0])
    ensures vs[|vs| - 1] == vs[0] ==> CyclicSum(vs) == ShoelaceSum(vs)
    ensures ShoelaceSum(vs + [vs[0]]) == CyclicSum(vs)
  {
    var n := |vs|;
    CyclicPartialIsShoelace(vs, n - 1);
    assert vs[..n] == vs;
    assert (vs + [vs[0]])[..n] == vs;
  }

  /** The three corners of a right triangle, flagged `closed` without repeating the first. */
  const TriangleCorners: seq<RawPoint> := [RawPoint(Num(10.0), Num(0.0)), RawPoint(Num(0.0), Num(0.0)), RawPoint(Num(0.0), Num(10.0))]
  const ClosedTriangle: Entity := Entity("LWPOLYLINE", RawPoint(Missing, Missing), RawPoint(Missing, Missing), TriangleCorners, true)

  lemma TriangleBounds()
    ensures BoxOf([ClosedTriangle]) == Some(Rect(0.0, 0.0, 10.0, 10.0))
  {
    var vs := TriangleCorners;
    assert [ClosedTriangle][..0] == [];
    assert RawPoints(ClosedTriangle) == vs;
    assert vs[..3] == vs && vs[..3][..2] == vs[..2] && vs[..2][..1] == vs[..1] && vs[..1][..0] == [];
    assert ExtendAll(None, vs[..1]) == Some(Rect(10.0, 0.0, 10.0, 0.0));
    assert ExtendAll(None, vs[..2]) == Some(Rect(0.0, 0.0, 10.0, 0.0));
  }

  lemma TriangleNormalised()
    ensures IsPolyline(ClosedTriangle) && ClosedTriangle.closed
    ensures NormaliseAll(Rect(0.0, 0.0, 10.0, 10.0), 1.0, TriangleCorners) == [Coord(10.0, 0.0), Coord(0.0, 0.0), Coord(0.0, 10.0)]
  {
    var r := Rect(0.0, 0.0, 10.0, 10.0);
    var vs := TriangleCorners;
    var cs := [Coord(10.0, 0.0), Coord(0.0, 0.0), Coord(0.0, 10.0)];
    assert ClosedTriangle.kind[1] != "LINE"[1];
    assert vs[..3] == vs && vs[..3][..2] == vs[..2] && vs[..2][..1] == vs[..1] && vs[..1][..0] == [];
    assert Scaled(10.0, 5.0, 1.0) == 10.0 && Scaled(0.0, 5.0, 1.0) == 0.0;
    assert NormaliseAll(r, 1.0, vs[..1]) == cs[..1];
    assert NormaliseAll(r, 1.0, vs[..2]) == cs[..2];
  }

  /** The two sums of a three-vertex ring. */
  lemma ThreeVertexSums(a: Coord, b: Coord, c: Coord)
    ensures ShoelaceSum([a, b, c]) == Cross(a, b) + Cross(b, c)
    ensures CyclicSum([a, b, c]) == Cross(a, b) + Cross(b, c) + Cross(c, a)
  {
    var cs := [a, b, c];
    assert cs[..2] == [a, b] && cs[..2][..1] == [a];
    assert ShoelaceSum(cs) == ShoelaceSum([a, b]) + Cross(b, c);
    ShoelaceMissesClosingEdge(cs);
  }

  lemma FlatRoomDropped(e: Entity, r: Rect, scale: real, rooms: nat, id: nat, vs: seq<Coord>)
    requires IsPolyline(e) && e.closed && NormaliseAll(r, scale, e.vertices) == vs && |vs| > 2
    requires Area(vs) < 0.01
    ensures EntityElement(e, r, scale, rooms, id) == None
  {
  }

  lemma TriangleIgnored(e: Entity, r: Rect, rooms: nat, id: nat)
    requires e == ClosedTriangle && r == Rect(0.0, 0.0, 10.0, 10.0)
    ensures EntityElement(e, r, 1.0, rooms, id) == None
  {
    var a, b, c := Coord(10.0, 0.0), Coord(0.0, 0.0), Coord(0.0, 10.0);
    TriangleNormalised();
    ThreeVertexSums(a, b, c);
    FlatRoomDropped(e, r, 1.0, rooms, id, [a, b, c]);
  }

  /**
   * A triangle flagged `closed` whose last vertex is not repeated is
   * dropped: its importer sum is 0 although the polygon has area 50.
   */
  lemma ClosedTriangleDropped(fileName: string, firstId: nat)
    ensures Import(fileName, Some([ClosedTriangle]), firstId) == Failure(NoValidElements)
    ensures Abs(CyclicSum([Coord(10.0, 0.0), Coord(0.0, 0.0), Coord(0.0, 10.0)])) / 2.0 == 50.0
  {
    var r := Rect(0.0, 0.0, 10.0, 10.0);
    TriangleBounds();
    assert ScaleOf(r) == 1.0;
    TriangleIgnored(ClosedTriangle, r, 0, firstId);
    assert [ClosedTriangle][..0] == [];
    assert ElementsOf([ClosedTriangle], r, 1.0, firstId) == [];
    ThreeVertexSums(Coord(10.0, 0.0), Coord(0.0, 0.0), Coord(0.0, 10.0));
  }

  // ---------------------------------------------------------------------
  // The area test with the closing edge

  /** The area of the ring the room stores: the shoelace sum including the edge from the last vertex back to the first. */
  function RingArea(vs: seq<Coord>): real {
    Abs(CyclicSum(vs)) / 2.0
  }

  /** The area loop with the closing-edge term: index `i + 1` is taken mod n. */
  method RingAreaLoop(vs: seq<Coord>) returns (area: real)
    requires |vs| > 0
    ensures area == RingArea(vs)
  {
    area := 0.0;
    for i := 0 to |vs|
      invariant area == CyclicPartial(vs, i)
    {
      var j := (i + 1) % |vs|;
      area := area + (vs[i].x * vs[j].y - vs[j].x * vs[i].y);
    }
    area := Abs(area) / 2.0;
  }

  /**
   * The second pass's element for one entity when closed polylines are
   * measured by `RingArea`; every other case is `EntityElement`.
   */
  function RingEntityElement(e: Entity, r: Rect, scale: real, rooms: nat, id: nat): (el: Option<Element>)
    ensures el.Some? ==> el.value.id == id
  {
    var vs := NormaliseAll(r, scale, e.vertices);
    if !IsLine(e) && IsPolyline(e) && |vs| > 1 && IsClosed(vs, e.closed) then
      if RingArea(vs) < 0.01 then None else Some(RoomElement(id, vs, rooms))
    else EntityElement(e, r, scale, rooms, id)
  }

  /** The two measures differ only on closed polylines whose last vertex does not repeat the first. */
  lemma RingAreaAgreesOnRepeatedVertex(e: Entity, r: Rect, scale: real, rooms: nat, id: nat)
    requires var vs := NormaliseAll(r, scale, e.vertices); |vs| > 1 ==> vs[|vs| - 1] == vs[0]
    ensures RingEntityElement(e, r, scale, rooms, id) == EntityElement(e, r, scale, rooms, id)
  {
    var vs := NormaliseAll(r, scale, e.vertices);
    if |vs| > 1 {
      ShoelaceMissesClosingEdge(vs);
    }
  }

  /** Every room the ring-area rule keeps has a ring of area at least 0.01. */
  lemma RingRoomsHaveArea(e: Entity, r: Rect, scale: real, rooms: nat, id: nat)
    ensures var el := RingEntityElement(e, r, scale, rooms, id);
      el.Some? && el.value.kind == Room ==> RingArea(NormaliseAll(r, scale, e.vertices)) >= 0.01
  {
  }

  /** Measured with its closing edge, the closed triangle of area 50 becomes room "Oda 1". */
  lemma ClosedTriangleKeptByRingArea(id: nat)
    ensures RingEntityElement(ClosedTriangle, Rect(0.0, 0.0, 10.0, 10.0), 1.0, 0, id)
      == Some(RoomElement(id, [Coord(10.0, 0.0), Coord(0.0, 0.0), Coord(0.0, 10.0)], 0))
    ensures EntityElement(ClosedTriangle, Rect(0.0, 0.0, 10.0, 10.0), 1.0, 0, id) == None
  {
    var a, b, c := Coord(10.0, 0.0), Coord(0.0, 0.0), Coord(0.0, 10.0);
    TriangleNormalised();
    ThreeVertexSums(a, b, c);
    assert RingArea([a, b, c]) == 50.0;
    TriangleIgnored(ClosedTriangle, Rect(0.0, 0.0, 10.0, 10.0), 0, id);
  }
}
