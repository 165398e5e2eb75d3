/**
 * The slice of OpenLayers the map-state code relies on: a feature has an
 * identity and possibly a geometry, and a geometry has a type and
 * coordinates. Spatial tests (`intersectsCoordinate`, `getExtent` with
 * `containsExtent`) are library code; the modules that use them take them
 * as predicate parameters.
 */
module OlFeature {
  import opened Wrappers

  /** `Geometry.getType()`. */
  datatype GeometryType = PointGeometry | LineStringGeometry | PolygonGeometry | CircleGeometry | OtherGeometry

  /** A geometry: its type and its `getCoordinates()` (a point's coordinate for a point). */
  datatype Geometry = Geometry(kind: GeometryType, coordinates: seq<real>)

  /** `Feature`; `id` stands for the object's identity, compared with `===`. */
  datatype Feature = Feature(id: nat, geometry: Option<Geometry>)

  /** The features whose identity differs from `id`, in order. */
  function WithoutFeature(fs: seq<Feature>, id: nat): (r: seq<Feature>)
    ensures |r| <= |fs|
    decreases |fs|
  {
    if fs == [] then []
    else WithoutFeature(fs[..|fs| - 1], id) + (if fs[|fs| - 1].id == id then [] else [fs[|fs| - 1]])
  }

  /** Removing a feature keeps exactly the features with another identity. */
  lemma {:induction false} WithoutFeatureMembers(fs: seq<Feature>, id: nat)
    ensures forall f :: f in WithoutFeature(fs, id) <==> f in fs && f.id != id
    decreases |fs|
  {
    if fs != [] {
      WithoutFeatureMembers(fs[..|fs| - 1], id);
      assert fs == fs[..|fs| - 1] + [fs[|fs| - 1]];
    }
  }
}
