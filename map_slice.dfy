/**
 * The `map` slice of the global store: the list of drawing types recorded
 * as features are drawn, with `addFeature`, `removeLastFeature` and
 * `clearFeatures`. The store's state is updated in place, as Immer lets
 * the reducers do.
 */
module MapSlice {
  /** `DrawingType`: the `type` of a drawn feature ("Point", "Polygon", ...). */
  datatype DrawingType = DrawingType(kind: string)

  class MapSliceState {
    var drawingTypes: seq<DrawingType>

    /** `initialState`. */
    constructor ()
      ensures drawingTypes == []
    {
      drawingTypes := [];
    }

    /** `addFeature`: `push`. */
    method AddFeature(t: DrawingType)
      modifies this
      ensures drawingTypes == old(drawingTypes) + [t]
    {
      drawingTypes := drawingTypes + [t];
    }

    /** `removeLastFeature`: `pop`, which does nothing on an empty list. */
    method RemoveLastFeature()
      modifies this
      ensures drawingTypes == WithoutLast(old(drawingTypes))
    {
      if |drawingTypes| > 0 {
        drawingTypes := drawingTypes[..|drawingTypes| - 1];
      }
    }

    /** `clearFeatures`. */
    method ClearFeatures()
      modifies this
      ensures drawingTypes == []
    {
      drawingTypes := [];
    }
  }

  /** The list after `pop`. */
  function WithoutLast(ts: seq<DrawingType>): (r: seq<DrawingType>)
    ensures |ts| > 0 ==> |r| == |ts| - 1 && ts == r + [ts[|ts| - 1]]
    ensures |ts| == 0 ==> r == []
  {
    if |ts| > 0 then ts[..|ts| - 1] else ts
  }

  /** Popping after a push gives the list before the push. */
  lemma PushPop(ts: seq<DrawingType>, t: DrawingType)
    ensures WithoutLast(ts + [t]) == ts
  {
    assert (ts + [t])[..|ts|] == ts;
  }

  /** A push followed by a pop on the store restores the previous list. */
  method AddThenRemove(s: MapSliceState, t: DrawingType)
    modifies s
    ensures s.drawingTypes == old(s.drawingTypes)
  {
    s.AddFeature(t);
    s.RemoveLastFeature();
    PushPop(old(s.drawingTypes), t);
  }
}
