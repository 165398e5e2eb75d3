/**
 * The building data model: elements, floors and buildings, and the table of
 * element kinds with their display defaults (the `elementTypes` table of the
 * floor-plan editor).
 */
module FloorTypes {
  import opened Wrappers

  /** `BuildingElementType`. */
  datatype ElementKind = OuterWall | InnerWall | Door | Window | Room | Furniture | Raf | Product

  /** A coordinate pair `[x, y]` of the floor-plan canvas. */
  datatype Coord = Coord(x: real, y: real)

  /** A product placed on a shelf: the placed product's type, its `[column, row]` position and its id. */
  datatype ShelfProduct = ShelfProduct(productType: string, position: (real, real), id: string)

  /** A value in an element's open `properties` record. */
  datatype PropValue = Text(text: string) | Number(number: int) | Products(items: seq<ShelfProduct>)

  /**
   * `BuildingElement`. `id` stands for the object's identity: the editor
   * finds elements with `===`, and every spread copy `{...el}` is a new
   * object. `closingShared` records that the last coordinate is the very
   * array object of the first (the importers close a room with
   * `[...vertices, vertices[0]]`).
   */
  datatype Element = Element(
    id: nat,
    kind: ElementKind,
    coords: seq<Coord>,
    closingShared: bool,
    name: Option<string>,
    color: Option<string>,
    thickness: Option<int>,
    properties: Option<map<string, PropValue>>)

  /** `FloorPlan`. */
  datatype Floor = Floor(level: string, scale: real, elements: seq<Element>)

  /** `Building`. */
  datatype Building = Building(id: int, name: string, lon: real, lat: real, address: string, floors: seq<Floor>)

  /** One row of `elementTypes`: display name, default colour and, for strokes, default thickness. */
  datatype KindInfo = KindInfo(name: string, color: string, thickness: Option<int>)

  /** The `elementTypes` table; exactly the stroked kinds carry a thickness. */
  function KindTable(k: ElementKind): (info: KindInfo)
    ensures info.thickness.Some? <==> k in {OuterWall, InnerWall, Door, Window}
    ensures k == OuterWall ==> info.thickness == Some(5) && info.color == "#333"
    ensures k == InnerWall ==> info.thickness == Some(3) && info.color == "#666"
  {
    match k
    case OuterWall => KindInfo("Dış Duvar", "#333", Some(5))
    case InnerWall => KindInfo("İç Duvar", "#666", Some(3))
    case Door => KindInfo("Kapı", "#8B4513", Some(3))
    case Window => KindInfo("Pencere", "#87CEEB", Some(2))
    case Room => KindInfo("Oda", "rgba(200, 200, 200, 0.2)", None)
    case Furniture => KindInfo("Mobilya", "rgba(139, 69, 19, 0.3)", None)
    case Raf => KindInfo("RAF", "rgba(70, 130, 180, 0.3)", None)
    case Product => KindInfo("Ürün", "#FF6347", None)
  }

  /** The kinds drawn and rendered as polygons. */
  predicate IsAreaKind(k: ElementKind) {
    k == Room || k == Furniture || k == Raf
  }

  /** The number of rooms in a list of elements. */
  function CountRooms(els: seq<Element>): (n: nat)
    ensures n <= |els|
  {
    if els == [] then 0
    else CountRooms(els[..|els| - 1]) + (if els[|els| - 1].kind == Room then 1 else 0)
  }

  predicate InCanvas(c: Coord) {
    0.0 <= c.x <= 10.0 && 0.0 <= c.y <= 10.0
  }

  /** Every coordinate of every element lies in the 10 x 10 canvas. */
  predicate AllInCanvas(els: seq<Element>) {
    forall i, j | 0 <= i < |els| && 0 <= j < |els[i].coords| :: InCanvas(els[i].coords[j])
  }
}
