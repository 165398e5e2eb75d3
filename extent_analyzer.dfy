/**
 * The collapsible polygon analyzer of `libs/oplmap`: the user draws a
 * polygon, and every other feature of the vector source whose extent lies
 * inside the polygon's extent is listed; clearing removes the polygon from
 * the source again.
 *
 * `extentInside(p, g)` stands for `containsExtent(p.getExtent(), g.getExtent())`.
 */
module ExtentAnalyzer {
  import opened Wrappers
  import opened OlFeature

  /** An OpenLayers vector source, by the features it holds. */
  class VectorSource {
    var features: seq<Feature>

    constructor (features: seq<Feature>)
      ensures this.features == features
    {
      this.features := features;
    }

    /** `removeFeature`. */
    method RemoveFeature(f: Feature)
      modifies this
      ensures features == WithoutFeature(old(features), f.id)
    {
      features := WithoutFeature(features, f.id);
    }
  }

  /**
   * The features of `features`, in order, other than the polygon itself,
   * that have a geometry whose extent the polygon's extent contains.
   */
  function Inside(features: seq<Feature>, polygon: Feature, extentInside: (Geometry, Geometry) -> bool): seq<Feature>
    requires polygon.geometry.Some?
    decreases |features|
  {
    if features == [] then []
    else
      var f := features[|features| - 1];
      Inside(features[..|features| - 1], polygon, extentInside)
        + (if f.id != polygon.id && f.geometry.Some? && extentInside(polygon.geometry.value, f.geometry.value) then [f] else [])
  }

  /**
   * A feature is listed exactly when it is in the source, is not the
   * polygon, and has a geometry whose extent lies inside the polygon's.
   */
  lemma {:induction false} InsideMembers(features: seq<Feature>, polygon: Feature, extentInside: (Geometry, Geometry) -> bool)
    requires polygon.geometry.Some?
    ensures forall f :: f in Inside(features, polygon, extentInside) <==>
      && f in features && f.id != polygon.id && f.geometry.Some?
      && extentInside(polygon.geometry.value, f.geometry.value)
    decreases |features|
  {
    if features != [] {
      InsideMembers(features[..|features| - 1], polygon, extentInside);
      assert features == features[..|features| - 1] + [features[|features| - 1]];
    }
  }

  /** The list keeps source order: listing a concatenation concatenates the lists. */
  lemma {:induction false} InsideOrder(a: seq<Feature>, b: seq<Feature>, polygon: Feature, extentInside: (Geometry, Geometry) -> bool)
    requires polygon.geometry.Some?
    ensures Inside(a + b, polygon, extentInside) == Inside(a, polygon, extentInside) + Inside(b, polygon, extentInside)
    decreases |b|
  {
    if b == [] {
      assert a + b == a;
    } else {
      assert (a + b)[..|a + b| - 1] == a + b[..|b| - 1];
      InsideOrder(a, b[..|b| - 1], polygon, extentInside);
    }
  }

  /** `CollapsiblePolygonAnalyzer`'s state: its source, the selected polygon and the features inside it. */
  class PolygonAnalyzer {
    const source: VectorSource?
    var selectedPolygon: Option<Feature>
    var featuresInside: seq<Feature>

    constructor (source: VectorSource?)
      ensures this.source == source && selectedPolygon.None? && featuresInside == []
    {
      this.source := source;
      selectedPolygon := None;
      featuresInside := [];
    }

    /**
     * `findFeaturesInsidePolygon`: with no source or no polygon geometry the
     * list is left as it was.
     */
    method FindFeaturesInsidePolygon(polygon: Feature, extentInside: (Geometry, Geometry) -> bool)
      modifies this
      ensures selectedPolygon == old(selectedPolygon)
      ensures source == null || polygon.geometry.None? ==> featuresInside == old(featuresInside)
      ensures source != null && polygon.geometry.Some? ==> featuresInside == Inside(source.features, polygon, extentInside)
    {
      if source == null {
        return;
      }
      if polygon.geometry.None? {
        return;
      }
      var features := source.features;
      var inside := [];
      for i := 0 to |features|
        invariant inside == Inside(features[..i], polygon, extentInside)
      {
        var f := features[i];
        if f.id != polygon.id && f.geometry.Some? && extentInside(polygon.geometry.value, f.geometry.value) {
          inside := inside + [f];
        }
        assert features[..i + 1][..i] == features[..i];
      }
      assert features[..|features|] == features;
      featuresInside := inside;
    }

    /** The `drawend` handler: the drawn polygon becomes the selection and is analysed. */
    method SelectDrawn(polygon: Feature, extentInside: (Geometry, Geometry) -> bool)
      modifies this
      ensures selectedPolygon == Some(polygon)
      ensures source == null || polygon.geometry.None? ==> featuresInside == old(featuresInside)
      ensures source != null && polygon.geometry.Some? ==> featuresInside == Inside(source.features, polygon, extentInside)
    {
      selectedPolygon := Some(polygon);
      FindFeaturesInsidePolygon(polygon, extentInside);
    }

    /** `clearSelection`: remove the selected polygon from the source and reset the selection and the list. */
    method ClearSelection()
      modifies this, source
      ensures selectedPolygon.None? && featuresInside == []
      ensures source != null && old(selectedPolygon).Some? ==>
        source.features == WithoutFeature(old(source.features), old(selectedPolygon).value.id)
      ensures source != null && old(selectedPolygon).None? ==> source.features == old(source.features)
    {
      if selectedPolygon.Some? && source != null {
        source.RemoveFeature(selectedPolygon.value);
      }
      selectedPolygon := None;
      featuresInside := [];
    }
  }
}
