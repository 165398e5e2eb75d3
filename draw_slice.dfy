/**
 * The `draw` slice of the state-management library: the drawn features,
 * whether drawing is active, and the current drawing tool. The reducers
 * assign into the state in place, as Immer lets them do.
 */
module DrawSlice {
  import opened OlFeature

  /** The drawing tools of the slice. */
  datatype DrawType = Point | LineString | Polygon | Circle

  class DrawState {
    var features: seq<Feature>
    var isActive: bool
    var drawType: DrawType

    /** `initialState`: no features, inactive, drawing points. */
    constructor ()
      ensures features == [] && !isActive && drawType == Point
    {
      features := [];
      isActive := false;
      drawType := Point;
    }

    /** `addFeature`: `push`. */
    method AddFeature(f: Feature)
      modifies this
      ensures features == old(features) + [f]
      ensures isActive == old(isActive) && drawType == old(drawType)
    {
      features := features + [f];
    }

    /** `setFeatures`. */
    method SetFeatures(fs: seq<Feature>)
      modifies this
      ensures features == fs
      ensures isActive == old(isActive) && drawType == old(drawType)
    {
      features := fs;
    }

    /** `clearFeatures`. */
    method ClearFeatures()
      modifies this
      ensures features == []
      ensures isActive == old(isActive) && drawType == old(drawType)
    {
      features := [];
    }

    /** `setDrawType`. */
    method SetDrawType(t: DrawType)
      modifies this
      ensures drawType == t
      ensures features == old(features) && isActive == old(isActive)
    {
      drawType := t;
    }

    /** `setIsActive`. */
    method SetIsActive(active: bool)
      modifies this
      ensures isActive == active
      ensures features == old(features) && drawType == old(drawType)
    {
      isActive := active;
    }
  }
}
