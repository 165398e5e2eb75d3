/**
 * The shelf editor (`ShelfSystem`): the shelf-type table, the section
 * count clamp, product placement lists, and saving the shelf's settings
 * into its floor element as `shelfType`, `sections`, `products` and
 * `capacity` properties.
 */
module ShelfSystem {
  import opened Wrappers
  import opened Text
  import opened FloorTypes

  /** One row of `SHELF_TYPES`. */
  datatype ShelfInfo = ShelfInfo(name: string, capacity: nat, sectionHeight: nat, sectionWidth: nat, maxWeight: nat, image: string)

  /** `SHELF_TYPES[key]`; `None` for a key the table does not have. */
  function ShelfType(key: string): (info: Option<ShelfInfo>)
    ensures info.Some? <==> key in {"STANDARD", "PALLET", "DISPLAY"}
    ensures key == "STANDARD" ==> info.value.capacity == 20
    ensures key == "PALLET" ==> info.value.capacity == 10
    ensures key == "DISPLAY" ==> info.value.capacity == 15
  {
    if key == "STANDARD" then Some(ShelfInfo("Standart Raf", 20, 40, 100, 50, "/images/standard-shelf.png"))
    else if key == "PALLET" then Some(ShelfInfo("Palet Rafı", 10, 100, 120, 200, "/images/pallet-shelf.png"))
    else if key == "DISPLAY" then Some(ShelfInfo("Vitrin Rafı", 15, 30, 80, 20, "/images/display-shelf.png"))
    else None
  }

  // ---------------------------------------------------------------------
  // Section count

  /** `Math.max(1, Math.min(10, parsed || 1))`, with `None` for NaN. */
  function ClampSections(parsed: Option<int>): (n: int)
    ensures 1 <= n <= 10
  {
    var v := if parsed.None? || parsed.value == 0 then 1 else parsed.value;
    if v < 1 then 1 else if v > 10 then 10 else v
  }

  /**
   * The section count is always in [1, 10]: a missing number, 0 and
   * negative input give 1, input above 10 gives 10, and anything between is
   * kept.
   */
  lemma ClampRule(parsed: Option<int>)
    ensures parsed.None? || parsed.value <= 1 ==> ClampSections(parsed) == 1
    ensures parsed.Some? && parsed.value >= 10 ==> ClampSections(parsed) == 10
    ensures parsed.Some? && 1 <= parsed.value <= 10 ==> ClampSections(parsed) == parsed.value
  {
  }

  /** The clamp is idempotent: a clamped count read back is kept. */
  lemma ClampIdempotent(parsed: Option<int>)
    ensures ClampSections(Some(ClampSections(parsed))) == ClampSections(parsed)
  {
  }

  // ---------------------------------------------------------------------
  // Products

  /** `[...products, {...product, position, id}]`. */
  function WithProduct(ps: seq<ShelfProduct>, productType: string, position: (real, real), id: string): seq<ShelfProduct> {
    ps + [ShelfProduct(productType, position, id)]
  }

  /** `products.filter(p => p.id !== id)`. */
  function WithoutProduct(ps: seq<ShelfProduct>, id: string): (r: seq<ShelfProduct>)
    ensures |r| <= |ps|
    decreases |ps|
  {
    if ps == [] then []
    else WithoutProduct(ps[..|ps| - 1], id) + (if ps[|ps| - 1].id == id then [] else [ps[|ps| - 1]])
  }

  /** Adding places exactly one product, with the given position, after the others. */
  lemma WithProductRule(ps: seq<ShelfProduct>, productType: string, position: (real, real), id: string)
    ensures var r := WithProduct(ps, productType, position, id);
      |r| == |ps| + 1 && r[..|ps|] == ps && r[|ps|].position == position && r[|ps|].id == id
  {
    assert (ps + [ShelfProduct(productType, position, id)])[..|ps|] == ps;
  }

  /** Removing drops exactly the products with that id. */
  lemma {:induction false} WithoutProductMembers(ps: seq<ShelfProduct>, id: string)
    ensures forall p :: p in WithoutProduct(ps, id) <==> p in ps && p.id != id
    decreases |ps|
  {
    if ps != [] {
      WithoutProductMembers(ps[..|ps| - 1], id);
      assert ps == ps[..|ps| - 1] + [ps[|ps| - 1]];
    }
  }

  /** Removal keeps the remaining products in order. */
  lemma {:induction false} WithoutProductOrder(a: seq<ShelfProduct>, b: seq<ShelfProduct>, id: string)
    ensures WithoutProduct(a + b, id) == WithoutProduct(a, id) + WithoutProduct(b, id)
    decreases |b|
  {
    if b == [] {
      assert a + b == a;
    } else {
      assert (a + b)[..|a + b| - 1] == a + b[..|b| - 1];
      WithoutProductOrder(a, b[..|b| - 1], id);
    }
  }

  /** Removing an id that no product has changes nothing. */
  lemma {:induction false} WithoutAbsentProduct(ps: seq<ShelfProduct>, id: string)
    requires forall i | 0 <= i < |ps| :: ps[i].id != id
    ensures WithoutProduct(ps, id) == ps
    decreases |ps|
  {
    if ps != [] {
      WithoutAbsentProduct(ps[..|ps| - 1], id);
      assert ps == ps[..|ps| - 1] + [ps[|ps| - 1]];
    }
  }

  // ---------------------------------------------------------------------
  // Saving

  /** The element `updateShelfProperties` writes; `None` when the shelf type is not in the table (a TypeError). */
  function SavedElement(el: Element, shelfType: string, sections: int, products: seq<ShelfProduct>): Option<Element> {
    match ShelfType(shelfType)
    case None => None
    case Some(info) =>
      var props := el.properties.GetOr(map[]);
      Some(el.(properties := Some(props["shelfType" := Text(shelfType)]["sections" := Number(sections)]
        ["products" := Products(products)]["capacity" := Number(info.capacity * sections)])))
  }

  /**
   * Saving succeeds exactly for a known shelf type; it then writes the four
   * shelf keys, with capacity = the type's capacity times the sections, and
   * keeps every other property and every other field of the element.
   */
  lemma SavedElementRule(el: Element, shelfType: string, sections: int, products: seq<ShelfProduct>)
    ensures SavedElement(el, shelfType, sections, products).Some? <==> ShelfType(shelfType).Some?
    ensures var r := SavedElement(el, shelfType, sections, products);
      r.Some? ==>
        && r.value.(properties := el.properties) == el
        && r.value.properties.Some?
        && var props := r.value.properties.value;
        && props["shelfType"] == Text(shelfType)
        && props["sections"] == Number(sections)
        && props["products"] == Products(products)
        && props["capacity"] == Number(ShelfType(shelfType).value.capacity * sections)
        && props.Keys == el.properties.GetOr(map[]).Keys + {"shelfType", "sections", "products", "capacity"}
        && forall k | k in el.properties.GetOr(map[]) && k !in {"shelfType", "sections", "products", "capacity"} ::
             props[k] == el.properties.GetOr(map[])[k]
  {
  }

  /** A saved shelf of a known type with a clamped section count holds 10 to 200 places. */
  lemma SavedCapacityRange(key: string, parsed: Option<int>)
    requires ShelfType(key).Some?
    ensures 10 <= ShelfType(key).value.capacity * ClampSections(parsed) <= 200
  {
  }

  // ---------------------------------------------------------------------
  // The editor

  /** Shelf properties as this editor writes them: a text type, a number of sections, a product list. */
  predicate ShelfPropsTyped(props: map<string, PropValue>) {
    && ("shelfType" in props ==> props["shelfType"].Text?)
    && ("sections" in props ==> props["sections"].Number?)
    && ("products" in props ==> props["products"].Products?)
  }

  /** The OpenLayers feature the editor works on, by the element it carries. */
  class ShelfFeature {
    var element: Element

    constructor (element: Element)
      ensures this.element == element
    {
      this.element := element;
    }
  }

  /** The editor's state: the chosen shelf type, the section count and the placed products. */
  class ShelfEditor {
    var shelfType: string
    var sections: int
    var products: seq<ShelfProduct>

    constructor ()
      ensures shelfType == "STANDARD" && sections == 1 && products == []
    {
      shelfType := "STANDARD";
      sections := 1;
      products := [];
    }

    /**
     * The effect that loads the feature's properties: a missing or empty
     * type gives "STANDARD", a missing or zero section count gives 1, and
     * missing products give none; an element without properties loads
     * nothing.
     */
    method Load(el: Element)
      requires el.properties.Some? ==> ShelfPropsTyped(el.properties.value)
      modifies this
      ensures el.properties.None? ==> shelfType == old(shelfType) && sections == old(sections) && products == old(products)
      ensures el.properties.Some? ==>
        var props := el.properties.value;
        && shelfType == (if "shelfType" in props && props["shelfType"].text != "" then props["shelfType"].text else "STANDARD")
        && sections == (if "sections" in props && props["sections"].number != 0 then props["sections"].number else 1)
        && products == (if "products" in props then props["products"].items else [])
    {
      if el.properties.Some? {
        var props := el.properties.value;
        shelfType := if "shelfType" in props && props["shelfType"].text != "" then props["shelfType"].text else "STANDARD";
        sections := if "sections" in props && props["sections"].number != 0 then props["sections"].number else 1;
        products := if "products" in props then props["products"].items else [];
      }
    }

    /** `handleShelfTypeChange`: a new type empties the product list. */
    method ChangeShelfType(key: string)
      modifies this
      ensures shelfType == key && products == [] && sections == old(sections)
    {
      shelfType := key;
      products := [];
    }

    /** `handleSectionChange`. */
    method ChangeSections(input: string)
      modifies this
      ensures sections == ClampSections(ParseLeadingInt(input))
      ensures 1 <= sections <= 10
      ensures shelfType == old(shelfType) && products == old(products)
    {
      sections := ClampSections(ParseLeadingInt(input));
    }

    /** `addProduct`; `id` stands for `Date.now().toString()`. */
    method AddProduct(productType: string, position: (real, real), id: string)
      modifies this
      ensures products == WithProduct(old(products), productType, position, id)
      ensures shelfType == old(shelfType) && sections == old(sections)
    {
      products := WithProduct(products, productType, position, id);
    }

    /** `removeProduct`. */
    method RemoveProduct(id: string)
      modifies this
      ensures products == WithoutProduct(old(products), id)
      ensures shelfType == old(shelfType) && sections == old(sections)
    {
      products := WithoutProduct(products, id);
    }

    /** `updateShelfProperties`: write the saved element into the feature; `false` for the TypeError of an unknown type. */
    method UpdateShelfProperties(feature: ShelfFeature) returns (saved: bool)
      modifies feature
      ensures saved <==> ShelfType(shelfType).Some?
      ensures saved ==> feature.element == SavedElement(old(feature.element), shelfType, sections, products).value
      ensures !saved ==> feature.element == old(feature.element)
    {
      var r := SavedElement(feature.element, shelfType, sections, products);
      if r.Some? {
        feature.element := r.value;
      }
      saved := r.Some?;
    }
  }
}
