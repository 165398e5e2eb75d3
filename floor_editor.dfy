/**
 * The floor-plan editor's element store (`FloorPlanModal.tsx`): how an
 * element becomes a map geometry, which geometry a drawing mode draws, and
 * the copy-on-write updates of the edited building — delete the selected
 * element, merge an update into it, set a floor property, append a drawn
 * element, append an imported floor.
 *
 * Object identity (`===`, `!==`) is the synthetic `Element.id`: every
 * spread copy `{...el, ...}` is a new object and gets an id the caller
 * passes in as fresh.
 */
module FloorEditor {
  import opened Wrappers
  import opened Text
  import opened FloorTypes
  import opened DxfProcessor
  import opened DxfInFile

  // ---------------------------------------------------------------------
  // Geometry of an element

  datatype GeometryType = PointType | LineStringType | PolygonType

  /** The geometry `createFeatureFromElement` builds: a point, a line string, or a polygon with one ring. */
  datatype FloorGeometry = PointGeom(at: Coord) | LineGeom(path: seq<Coord>) | PolygonGeom(ring: seq<Coord>)

  function TypeOf(g: FloorGeometry): GeometryType {
    match g
    case PointGeom(_) => PointType
    case LineGeom(_) => LineStringType
    case PolygonGeom(_) => PolygonType
  }

  /** The geometry type the drawing interaction uses for a drawing mode. */
  function DrawGeometryType(k: ElementKind): (t: GeometryType)
    ensures t == PolygonType <==> IsAreaKind(k)
    ensures t == PointType <==> k == Product
  {
    if IsAreaKind(k) then PolygonType else if k == Product then PointType else LineStringType
  }

  /**
   * `coords[0] !== coords[coords.length - 1]` is false exactly when the last
   * coordinate is the very array of the first: a single coordinate, or a
   * ring an importer closed with `[...vertices, vertices[0]]`.
   */
  predicate EndsShareObject(el: Element) {
    |el.coords| == 1 || el.closingShared
  }

  /** `createFeatureFromElement`: `None` for an element without coordinates. */
  function FeatureGeometry(el: Element): (g: Option<FloorGeometry>)
    ensures g.None? <==> |el.coords| == 0
  {
    if |el.coords| == 0 then None
    else if el.kind == Product then Some(PointGeom(el.coords[0]))
    else if IsAreaKind(el.kind) then
      Some(PolygonGeom(if EndsShareObject(el) then el.coords else el.coords + [el.coords[0]]))
    else Some(LineGeom(el.coords))
  }

  /** The importers' invariant: a shared closing coordinate is the first coordinate again. */
  predicate WellFormed(el: Element) {
    el.closingShared ==> |el.coords| > 0 && el.coords[|el.coords| - 1] == el.coords[0]
  }

  /** A feature's geometry type is the one its kind is drawn with. */
  lemma FeatureMatchesDrawMode(el: Element)
    requires |el.coords| > 0
    ensures FeatureGeometry(el).Some? && TypeOf(FeatureGeometry(el).value) == DrawGeometryType(el.kind)
  {
  }

  /**
   * A product is a point at its first coordinate; any other non-area kind is
   * a line string through all its coordinates.
   */
  lemma PointAndLineFeatures(el: Element)
    requires |el.coords| > 0 && !IsAreaKind(el.kind)
    ensures el.kind == Product ==> FeatureGeometry(el) == Some(PointGeom(el.coords[0]))
    ensures el.kind != Product ==> FeatureGeometry(el) == Some(LineGeom(el.coords))
  {
  }

  /**
   * The polygon of a well-formed area element starts with the element's
   * coordinates and ends where it starts; the first coordinate is appended
   * unless the last one is the same object.
   */
  lemma PolygonRingClosed(el: Element)
    requires WellFormed(el) && IsAreaKind(el.kind) && |el.coords| > 0
    ensures FeatureGeometry(el).Some? && FeatureGeometry(el).value.PolygonGeom?
    ensures var ring := FeatureGeometry(el).value.ring;
      && |el.coords| <= |ring| <= |el.coords| + 1
      && ring[..|el.coords|] == el.coords
      && ring[|ring| - 1] == ring[0]
      && (|ring| == |el.coords| + 1 <==> !EndsShareObject(el))
  {
    var ring := FeatureGeometry(el).value.ring;
    assert ring[..|el.coords|] == el.coords;
  }

  /** Every room an importer produces is well formed. */
  lemma ImportedRoomsWellFormed(e: Entity, r: Rect, scale: real, rooms: nat, id: nat)
    ensures var el := EntityElement(e, r, scale, rooms, id);
      el.Some? ==> WellFormed(el.value)
    ensures NaNFree(e) ==> var el := InFileElement(e, r, scale, id);
      el.Some? ==> WellFormed(el.value)
  {
  }

  // ---------------------------------------------------------------------
  // Delete

  /** `elements.filter(el => el !== selected)`. */
  function WithoutId(els: seq<Element>, id: nat): (r: seq<Element>)
    ensures |r| <= |els|
    decreases |els|
  {
    if els == [] then []
    else (if els[0].id == id then [] else [els[0]]) + WithoutId(els[1..], id)
  }

  /** The editor's building together with the selected element. */
  datatype Session = Session(building: Building, selected: Option<Element>)

  /**
   * `handleDeleteElement`: drop the selection from the current floor and
   * clear the selection; nothing without a selection.
   */
  function DeleteSelected(s: Session, current: nat): Session {
    match s.selected
    case None => s
    case Some(sel) =>
      var b := s.building;
      if current < |b.floors| then
        Session(b.(floors := b.floors[current := b.floors[current].(elements := WithoutId(b.floors[current].elements, sel.id))]), None)
      else Session(b, None)
  }

  /** The filter keeps exactly the elements with another identity, in order. */
  lemma {:induction false} WithoutIdKeepsOthers(els: seq<Element>, id: nat)
    ensures forall e :: e in WithoutId(els, id) <==> e in els && e.id != id
    ensures (forall i | 0 <= i < |els| :: els[i].id != id) ==> WithoutId(els, id) == els
    decreases |els|
  {
    if els != [] {
      WithoutIdKeepsOthers(els[1..], id);
      assert els == [els[0]] + els[1..];
    }
  }

  /** The filter distributes over concatenation, so the survivors keep their relative order. */
  lemma {:induction false} WithoutIdOrder(a: seq<Element>, b: seq<Element>, id: nat)
    ensures WithoutId(a + b, id) == WithoutId(a, id) + WithoutId(b, id)
    decreases |a|
  {
    if a != [] {
      assert (a + b)[1..] == a[1..] + b;
      WithoutIdOrder(a[1..], b, id);
    } else {
      assert a + b == b;
    }
  }

  /**
   * Deleting removes every element identical to the selection from the
   * current floor only, keeps every other element and leaves nothing
   * selected; without a selection it changes nothing.
   */
  lemma DeleteRule(s: Session, current: nat)
    ensures var r := DeleteSelected(s, current);
      var b := s.building;
      var c := r.building;
      && r.selected.None?
      && |c.floors| == |b.floors|
      && c.(floors := b.floors) == b
      && (s.selected.None? ==> r == s)
      && (forall i | 0 <= i < |b.floors| && i != current :: c.floors[i] == b.floors[i])
      && (s.selected.Some? && current < |b.floors| ==>
            && c.floors[current].level == b.floors[current].level
            && c.floors[current].scale == b.floors[current].scale
            && forall e :: e in c.floors[current].elements <==> e in b.floors[current].elements && e.id != s.selected.value.id)
  {
    if s.selected.Some? && current < |s.building.floors| {
      WithoutIdKeepsOthers(s.building.floors[current].elements, s.selected.value.id);
    }
  }

  // ---------------------------------------------------------------------
  // Update

  /** `Partial<BuildingElement>`: `None` for a key the update does not carry. */
  datatype ElementUpdate = ElementUpdate(
    kind: Option<ElementKind>,
    coords: Option<seq<Coord>>,
    name: Option<Option<string>>,
    color: Option<Option<string>>,
    thickness: Option<Option<int>>,
    properties: Option<Option<map<string, PropValue>>>)

  /** `{...el, ...updates}`: a new object with the update's keys overriding. */
  function Merge(el: Element, u: ElementUpdate, freshId: nat): (m: Element)
    ensures m.id == freshId
    ensures u == ElementUpdate(None, None, None, None, None, None) ==> m == el.(id := freshId)
  {
    Element(
      freshId,
      u.kind.GetOr(el.kind),
      u.coords.GetOr(el.coords),
      if u.coords.Some? then false else el.closingShared,
      u.name.GetOr(el.name),
      u.color.GetOr(el.color),
      u.thickness.GetOr(el.thickness),
      u.properties.GetOr(el.properties))
  }

  /** `findIndex(el => el === selected)` by identity: the first index with that id, or -1. */
  function FirstWithId(els: seq<Element>, id: nat): (i: int)
    ensures -1 <= i < |els|
    ensures i >= 0 ==> els[i].id == id && forall j | 0 <= j < i :: els[j].id != id
    ensures i == -1 <==> forall j | 0 <= j < |els| :: els[j].id != id
    decreases |els|
  {
    if els == [] then -1
    else if els[0].id == id then 0
    else
      var k := FirstWithId(els[1..], id);
      if k == -1 then -1 else k + 1
  }

  /** The current floor's elements after `updateBuildingElement`. */
  function UpdatedElements(els: seq<Element>, selected: Option<Element>, u: ElementUpdate, freshId: nat): seq<Element> {
    match selected
    case None => els
    case Some(s) =>
      var idx := FirstWithId(els, s.id);
      if idx >= 0 then els[idx := Merge(els[idx], u, freshId)] else els
  }

  /** `updateBuildingElement`; the source indexes the current floor without a check. */
  function UpdateElement(b: Building, current: nat, selected: Option<Element>, u: ElementUpdate, freshId: nat): Building
    requires current < |b.floors|
  {
    b.(floors := b.floors[current := b.floors[current].(elements := UpdatedElements(b.floors[current].elements, selected, u, freshId))])
  }

  /**
   * The update merges into the first element identical to the selection and
   * nowhere else; with no such element the building is unchanged, and
   * other floors are never touched.
   */
  lemma UpdateRule(b: Building, current: nat, selected: Option<Element>, u: ElementUpdate, freshId: nat)
    requires current < |b.floors|
    ensures var r := UpdateElement(b, current, selected, u, freshId);
      var els := b.floors[current].elements;
      var els' := r.floors[current].elements;
      && |r.floors| == |b.floors|
      && (forall i | 0 <= i < |b.floors| && i != current :: r.floors[i] == b.floors[i])
      && r.floors[current].(elements := els) == b.floors[current]
      && |els'| == |els|
      && (selected.None? || (forall j | 0 <= j < |els| :: els[j].id != selected.value.id) ==> r == b)
      && (selected.Some? ==> forall j | 0 <= j < |els| ::
            if j == FirstWithId(els, selected.value.id) then els'[j] == Merge(els[j], u, freshId) else els'[j] == els[j])
  {
    var r := UpdateElement(b, current, selected, u, freshId);
    if selected.None? || (forall j | 0 <= j < |b.floors[current].elements| :: b.floors[current].elements[j].id != selected.value.id) {
      assert b.floors[current := b.floors[current]] == b.floors;
    }
  }

  // ---------------------------------------------------------------------
  // Floor properties

  /** A key of `FloorPlan` with its new value. */
  datatype FloorValue = Level(level: string) | Scale(scale: real) | Elements(elements: seq<Element>)

  function SetField(f: Floor, v: FloorValue): Floor {
    match v
    case Level(l) => f.(level := l)
    case Scale(s) => f.(scale := s)
    case Elements(els) => f.(elements := els)
  }

  /** `updateFloorProperty`: set one key on the current floor. */
  function SetFloorProperty(b: Building, current: nat, v: FloorValue): Building {
    if current < |b.floors| then b.(floors := b.floors[current := SetField(b.floors[current], v)]) else b
  }

  /** Only the given key of the current floor changes. */
  lemma SetFloorPropertyRule(b: Building, current: nat, v: FloorValue)
    ensures var r := SetFloorProperty(b, current, v);
      && |r.floors| == |b.floors|
      && r.(floors := b.floors) == b
      && (forall i | 0 <= i < |b.floors| && i != current :: r.floors[i] == b.floors[i])
      && (current >= |b.floors| ==> r == b)
      && (current < |b.floors| ==>
            var f := b.floors[current];
            var g := r.floors[current];
            && (if v.Level? then g.level == v.level else g.level == f.level)
            && (if v.Scale? then g.scale == v.scale else g.scale == f.scale)
            && (if v.Elements? then g.elements == v.elements else g.elements == f.elements))
  {
  }

  /** Setting a key to the value it has is no change. */
  lemma SetFloorPropertyIdempotent(b: Building, current: nat, v: FloorValue)
    ensures SetFloorProperty(SetFloorProperty(b, current, v), current, v) == SetFloorProperty(b, current, v)
  {
  }

  // ---------------------------------------------------------------------
  // Upload

  /** The building and the upload error after `handleFileUpload` with the importer's outcome. */
  function ApplyUpload(b: Building, outcome: Result<Floor, DxfError>): (Building, Option<DxfError>) {
    match outcome
    case Success(f) => (b.(floors := b.floors + [f]), None)
    case Failure(e) => (b, Some(e))
  }

  /** `handleFileUpload` on a parsed file, through the in-file importer. */
  function UploadDxf(b: Building, parsed: Option<seq<CleanEntity>>, firstId: nat): (Building, Option<DxfError>)
  {
    ApplyUpload(b, InFileImport(parsed, firstId))
  }

  /**
   * A successful import appends its floor after the existing floors, which
   * stay in place; a failed one leaves the building as it was and reports
   * the error.
   */
  lemma UploadRule(b: Building, parsed: Option<seq<CleanEntity>>, firstId: nat)
    ensures var (r, err) := UploadDxf(b, parsed, firstId);
      var outcome := InFileImport(parsed, firstId);
      && (outcome.Success? ==>
            && err.None? && |r.floors| == |b.floors| + 1
            && r.floors[..|b.floors|] == b.floors
            && r.floors[|b.floors|].level == "DXF Import"
            && r.(floors := b.floors) == b)
      && (outcome.Failure? ==> r == b && err == Some(outcome.error))
      && (parsed.None? ==> r == b && err == Some(InvalidOrEmpty))
  {
    InFileOutcome(parsed, firstId);
    var outcome := InFileImport(parsed, firstId);
    if outcome.Success? {
      assert (b.floors + [outcome.value])[..|b.floors|] == b.floors;
    }
  }

  // ---------------------------------------------------------------------
  // Drawing

  /** What the drawing interaction hands to `drawend`. */
  datatype DrawnShape = DrawnPoint(at: Coord) | DrawnLine(path: seq<Coord>) | DrawnPolygon(rings: seq<seq<Coord>>)

  /**
   * The coordinates `drawend` stores: the outer ring of a polygon, the path
   * of a line string, the point of a point. A polygon without rings gives
   * `undefined` in the source, which every consumer treats like `[]`.
   */
  function DrawnCoords(s: DrawnShape): seq<Coord> {
    match s
    case DrawnPoint(c) => [c]
    case DrawnLine(cs) => cs
    case DrawnPolygon(rings) => if |rings| > 0 then rings[0] else []
  }

  /** "<type name> <n>", the name of a drawn element when none was typed. */
  function DefaultName(k: ElementKind, count: nat): string {
    KindTable(k).name + " " + NatToString(count + 1)
  }

  /** The element `drawend` builds; `count` is the current floor's element count. */
  function DrawnElement(k: ElementKind, typedName: string, s: DrawnShape, count: nat, id: nat): Element {
    Element(id, k, DrawnCoords(s), false,
      Some(if typedName == "" then DefaultName(k, count) else typedName),
      Some(KindTable(k).color), KindTable(k).thickness, Some(map[]))
  }

  /** `drawend`: append the drawn element to the current floor. */
  function AppendDrawn(b: Building, current: nat, k: ElementKind, typedName: string, s: DrawnShape, id: nat): Building
    requires current < |b.floors|
  {
    var f := b.floors[current];
    b.(floors := b.floors[current := f.(elements := f.elements + [DrawnElement(k, typedName, s, |f.elements|, id)])])
  }

  /**
   * A drawn element goes to the end of the current floor only; it is named
   * after its kind and its position when no name was typed, and takes its
   * colour and thickness from the kind table.
   */
  lemma AppendDrawnRule(b: Building, current: nat, k: ElementKind, typedName: string, s: DrawnShape, id: nat)
    requires current < |b.floors|
    ensures var r := AppendDrawn(b, current, k, typedName, s, id);
      var els := b.floors[current].elements;
      var els' := r.floors[current].elements;
      var el := els'[|els'| - 1];
      && |r.floors| == |b.floors|
      && (forall i | 0 <= i < |b.floors| && i != current :: r.floors[i] == b.floors[i])
      && |els'| == |els| + 1 && els'[..|els|] == els
      && el.kind == k && el.id == id && el.coords == DrawnCoords(s)
      && el.name == Some(if typedName == "" then KindTable(k).name + " " + NatToString(|els| + 1) else typedName)
      && el.color == Some(KindTable(k).color)
      && (el.thickness.Some? <==> k in {OuterWall, InnerWall, Door, Window})
  {
    var els := b.floors[current].elements;
    assert (els + [DrawnElement(k, typedName, s, |els|, id)])[..|els|] == els;
  }

  /** What is drawn in a mode is what its element is rendered as again. */
  lemma DrawnShapeRoundTrip(k: ElementKind, typedName: string, s: DrawnShape, count: nat, id: nat)
    requires |DrawnCoords(s)| > 0
    ensures var g := FeatureGeometry(DrawnElement(k, typedName, s, count, id));
      g.Some? && TypeOf(g.value) == DrawGeometryType(k)
  {
  }

  // ---------------------------------------------------------------------
  // Editing the selected element

  /**
   * A property edit as the editor's input handlers perform it: the selection
   * becomes a spread copy (`setSelectedElement({...selectedElement, ...})`,
   * a new object `copyId`) while the building receives a merged element
   * under another new identity `mergedId`.
   */
  function EditAsWritten(s: Session, current: nat, u: ElementUpdate, copyId: nat, mergedId: nat): Session
    requires current < |s.building.floors| && s.selected.Some?
  {
    Session(UpdateElement(s.building, current, s.selected, u, mergedId), Some(Merge(s.selected.value, u, copyId)))
  }

  /**
   * After one edit the selection is a copy that no floor holds, so a second
   * edit finds nothing and is lost: the building stays as the first edit
   * left it.
   */
  lemma SecondEditLost(s: Session, current: nat, u1: ElementUpdate, copy1: nat, merged1: nat,
                       u2: ElementUpdate, copy2: nat, merged2: nat)
    requires current < |s.building.floors| && s.selected.Some?
    requires copy1 != merged1
    requires forall j | 0 <= j < |s.building.floors[current].elements| :: s.building.floors[current].elements[j].id != copy1
    ensures var s1 := EditAsWritten(s, current, u1, copy1, merged1);
      EditAsWritten(s1, current, u2, copy2, merged2).building == s1.building
  {
    var s1 := EditAsWritten(s, current, u1, copy1, merged1);
    var els := s.building.floors[current].elements;
    var els1 := s1.building.floors[current].elements;
    UpdateRule(s.building, current, s.selected, u1, merged1);
    forall j | 0 <= j < |els1| ensures els1[j].id != copy1 {
      if j == FirstWithId(els, s.selected.value.id) {
        assert els1[j].id == merged1;
      } else {
        assert els1[j] == els[j];
      }
    }
    UpdateRule(s1.building, current, s1.selected, u2, merged2);
  }

  /**
   * The edit as evidently intended: the selection follows the element the
   * building now holds, so the next edit finds it again.
   */
  function EditTracked(s: Session, current: nat, u: ElementUpdate, mergedId: nat): Session
    requires current < |s.building.floors| && s.selected.Some?
  {
    var b := UpdateElement(s.building, current, s.selected, u, mergedId);
    var idx := FirstWithId(s.building.floors[current].elements, s.selected.value.id);
    Session(b, if idx >= 0 then Some(b.floors[current].elements[idx]) else None)
  }

  /**
   * With tracked selection two successive edits both reach the element: it
   * holds the second update merged over the first.
   */
  lemma SuccessiveEditsApply(s: Session, current: nat, u1: ElementUpdate, merged1: nat, u2: ElementUpdate, merged2: nat)
    requires current < |s.building.floors| && s.selected.Some?
    requires FirstWithId(s.building.floors[current].elements, s.selected.value.id) >= 0
    requires forall j | 0 <= j < |s.building.floors[current].elements| :: s.building.floors[current].elements[j].id != merged1
    ensures var i := FirstWithId(s.building.floors[current].elements, s.selected.value.id);
      var s1 := EditTracked(s, current, u1, merged1);
      && s1.selected.Some?
      && current < |s1.building.floors|
      && EditTracked(s1, current, u2, merged2).building.floors[current].elements[i]
           == Merge(Merge(s.building.floors[current].elements[i], u1, merged1), u2, merged2)
  {
    var els := s.building.floors[current].elements;
    var i := FirstWithId(els, s.selected.value.id);
    var s1 := EditTracked(s, current, u1, merged1);
    var els1 := s1.building.floors[current].elements;
    UpdateRule(s.building, current, s.selected, u1, merged1);
    assert els1[i] == Merge(els[i], u1, merged1);
    assert FirstWithId(els1, merged1) == i by {
      forall j | 0 <= j < i ensures els1[j].id != merged1 {
        assert els1[j] == els[j];
      }
    }
    UpdateRule(s1.building, current, s1.selected, u2, merged2);
  }
}
