/**
 * The second DXF importer, the one embedded in the floor-plan editor
 * (`processDxfFile` of `FloorPlanModal.tsx`). It measures the same bounds
 * as `dxfProcessor.ts` but maps coordinates relative to the minimum corner,
 * `(v - min) * scale`; it keeps every LINE, needs more than two vertices
 * for a polyline, recognises closure only by the first and last vertex
 * lying within 0.1 of each other on each axis, and neither names rooms nor
 * measures their area.
 *
 * This importer does not skip NaN coordinates while measuring, so a NaN
 * poisons the bounds; the model covers NaN-free input (`CleanEntity`).
 */
module DxfInFile {
  import opened Wrappers
  import opened FloorTypes
  import opened DxfProcessor

  const ImportLevel: string := "DXF Import"

  /** No point this importer reads from `e` is NaN. */
  predicate NaNFree(e: Entity) {
    forall j | 0 <= j < |RawPoints(e)| :: Valid(RawPoints(e)[j]).Some?
  }

  /** The entities this model of the importer takes: no point it reads is NaN. */
  type CleanEntity = e: Entity | NaNFree(e) witness Entity("", RawPoint(Missing, Missing), RawPoint(Missing, Missing), [], false)

  /** One axis of this importer's `normalizeCoord`. */
  function FromCorner(v: real, lo: real, scale: real): real {
    (v - lo) * scale
  }

  /** `normalizeCoord`: relative to the minimum corner of the bounds, scaled. */
  function CornerRelative(r: Rect, scale: real, p: RawPoint): Coord
    requires Valid(p).Some?
  {
    var c := Valid(p).value;
    Coord(FromCorner(c.x, r.minX, scale), FromCorner(c.y, r.minY, scale))
  }

  /** The vertices mapped by `normalizeCoord`, in order. */
  function CornerAll(r: Rect, scale: real, vs: seq<RawPoint>): (cs: seq<Coord>)
    requires forall j | 0 <= j < |vs| :: Valid(vs[j]).Some?
    ensures |cs| == |vs|
    ensures forall j | 0 <= j < |vs| :: cs[j] == CornerRelative(r, scale, vs[j])
  {
    seq(|vs|, j requires 0 <= j < |vs| => CornerRelative(r, scale, vs[j]))
  }

  /** Closure as this importer sees it: more than two vertices, first and last within 0.1 on each axis. */
  predicate NearlyClosed(vs: seq<Coord>) {
    |vs| > 2 && Abs(vs[0].x - vs[|vs| - 1].x) < 0.1 && Abs(vs[0].y - vs[|vs| - 1].y) < 0.1
  }

  /** What the second pass pushes for one entity; `id` stands for the new object's identity. */
  function InFileElement(e: CleanEntity, r: Rect, scale: real, id: nat): (el: Option<Element>)
    ensures el.Some? ==> el.value.id == id && el.value.name == None
  {
    if IsLine(e) then
      assert Valid(RawPoints(e)[0]).Some? && Valid(RawPoints(e)[1]).Some?;
      var start := CornerRelative(r, scale, e.start);
      var end := CornerRelative(r, scale, e.end);
      Some(Element(id, OuterWall, [start, end], false, None, Some(OuterWallColor), Some(5), None))
    else if IsPolyline(e) then
      assert RawPoints(e) == e.vertices;
      var vs := CornerAll(r, scale, e.vertices);
      if |vs| > 2 then
        if NearlyClosed(vs) then Some(Element(id, Room, vs + [vs[0]], true, None, Some(RoomColor), None, None))
        else Some(Element(id, InnerWall, vs, false, None, Some(InnerWallColor), None, None))
      else None
    else None
  }

  /** The elements pushed after the entities `es`, in entity order. */
  function InFileElements(es: seq<CleanEntity>, r: Rect, scale: real, firstId: nat): (els: seq<Element>)
    ensures |els| <= |es|
    decreases |es|
  {
    if es == [] then []
    else
      var prev := InFileElements(es[..|es| - 1], r, scale, firstId);
      match InFileElement(es[|es| - 1], r, scale, firstId + |prev|)
      case None => prev
      case Some(el) => prev + [el]
  }

  /**
   * The whole in-file import. When the bounds stay infinite no element can
   * come out (`NoBoundsNoElements`), so the rectangle used then does not
   * matter.
   */
  function InFileImport(parsed: Option<seq<CleanEntity>>, firstId: nat): Result<Floor, DxfError>
  {
    match parsed
    case None => Failure(InvalidOrEmpty)
    case Some(es) =>
      var r := Fallback(BoxOf(es));
      var scale := ScaleOf(r);
      var els := InFileElements(es, r, scale, firstId);
      if |els| == 0 then Failure(NoValidElements) else Success(Floor(ImportLevel, scale, els))
  }

  // ---------------------------------------------------------------------
  // The importer as the source runs it

  /** The body of the second pass for one entity. */
  method ClassifyInModal(e: CleanEntity, r: Rect, scale: real, id: nat) returns (el: Option<Element>)
    ensures el == InFileElement(e, r, scale, id)
  {
    el := None;
    if IsLine(e) {
      assert Valid(RawPoints(e)[0]).Some? && Valid(RawPoints(e)[1]).Some?;
      var start := CornerRelative(r, scale, e.start);
      var end := CornerRelative(r, scale, e.end);
      el := Some(Element(id, OuterWall, [start, end], false, None, Some(OuterWallColor), Some(5), None));
    } else if IsPolyline(e) {
      assert RawPoints(e) == e.vertices;
      var vertices := CornerAll(r, scale, e.vertices);
      if |vertices| > 2 {
        var n := |vertices|;
        var isClosed := n > 2 && Abs(vertices[0].x - vertices[n - 1].x) < 0.1 && Abs(vertices[0].y - vertices[n - 1].y) < 0.1;
        if isClosed {
          el := Some(Element(id, Room, vertices + [vertices[0]], true, None, Some(RoomColor), None, None));
        } else {
          el := Some(Element(id, InnerWall, vertices, false, None, Some(InnerWallColor), None, None));
        }
      }
    }
  }

  /** The second `forEach` pass: push what each entity yields, in order. */
  method SecondPassInModal(entities: seq<CleanEntity>, r: Rect, scale: real, firstId: nat) returns (elements: seq<Element>)
    ensures elements == InFileElements(entities, r, scale, firstId)
  {
    elements := [];
    for i := 0 to |entities|
      invariant elements == InFileElements(entities[..i], r, scale, firstId)
    {
      assert entities[..i + 1][..i] == entities[..i];
      var el := ClassifyInModal(entities[i], r, scale, firstId + |elements|);
      if el.Some? {
        elements := elements + [el.value];
      }
    }
    assert entities[..|entities|] == entities;
  }

  /** The in-file `processDxfFile` from the parsed entities on. */
  method ProcessDxfInModal(parsed: Option<seq<CleanEntity>>, firstId: nat) returns (result: Result<Floor, DxfError>)
    ensures result == InFileImport(parsed, firstId)
  {
    if parsed.None? {
      return Failure(InvalidOrEmpty);
    }
    var entities := parsed.value;
    var box := ComputeBounds(entities);
    var r := Fallback(box);
    var scale := Min(CanvasSize / OrOne(r.maxX - r.minX), CanvasSize / OrOne(r.maxY - r.minY));
    var elements := SecondPassInModal(entities, r, scale, firstId);
    if |elements| == 0 {
      return Failure(NoValidElements);
    }
    return Success(Floor(ImportLevel, scale, elements));
  }

  // ---------------------------------------------------------------------
  // Classification

  /** Every LINE becomes an outer wall `[start, end]` of thickness 5 and colour #333, however short. */
  lemma InFileLineRule(e: CleanEntity, r: Rect, scale: real, id: nat)
    requires IsLine(e)
    ensures Valid(e.start).Some? && Valid(e.end).Some?
    ensures var el := InFileElement(e, r, scale, id);
      && el.Some? && el.value.kind == OuterWall
      && el.value.coords == [CornerRelative(r, scale, e.start), CornerRelative(r, scale, e.end)]
      && el.value.thickness == Some(5) && el.value.color == Some("#333")
  {
    assert Valid(RawPoints(e)[0]).Some? && Valid(RawPoints(e)[1]).Some?;
  }

  /**
   * A polyline with at most two vertices yields nothing; otherwise it is a
   * room closed by its first vertex when nearly closed (no name, no
   * thickness), and an inner wall without thickness when not.
   */
  lemma InFilePolylineRule(e: CleanEntity, r: Rect, scale: real, id: nat)
    requires IsPolyline(e)
    ensures RawPoints(e) == e.vertices
    ensures var el := InFileElement(e, r, scale, id);
      var vs := CornerAll(r, scale, e.vertices);
      && (|vs| <= 2 <==> el.None?)
      && (el.Some? && NearlyClosed(vs) ==>
            el.value.kind == Room && el.value.coords == vs + [vs[0]] && el.value.closingShared
            && el.value.color == Some("rgba(200, 200, 200, 0.2)") && el.value.thickness == None)
      && (el.Some? && !NearlyClosed(vs) ==>
            el.value.kind == InnerWall && el.value.coords == vs
            && el.value.color == Some("#666") && el.value.thickness == None)
  {
  }

  /** The `closed` flag plays no part here. */
  lemma InFileIgnoresClosedFlag(e: CleanEntity, r: Rect, scale: real, id: nat)
    ensures NaNFree(e.(closed := !e.closed))
    ensures InFileElement(e.(closed := !e.closed), r, scale, id) == InFileElement(e, r, scale, id)
  {
    assert RawPoints(e.(closed := !e.closed)) == RawPoints(e);
  }

  // ---------------------------------------------------------------------
  // The whole import

  lemma AxisFromCorner(lo: real, hi: real, v: real, scale: real)
    requires lo <= v <= hi
    requires 0.0 < scale <= CanvasSize / OrOne(hi - lo)
    ensures 0.0 <= FromCorner(v, lo, scale) <= 10.0
  {
    var w := hi - lo;
    if w == 0.0 {
      assert v - lo == 0.0;
    } else {
      assert scale * w <= 10.0 by {
        assert scale * w <= (10.0 / w) * w;
      }
      assert (v - lo) * scale <= w * scale;
    }
  }

  lemma CornerInCanvas(r: Rect, p: RawPoint)
    requires Ordered(r) && Valid(p).Some? && Covers(r, Valid(p).value)
    ensures InCanvas(CornerRelative(r, ScaleOf(r), p))
  {
    var c := Valid(p).value;
    ScalePositive(r);
    AxisFromCorner(r.minX, r.maxX, c.x, ScaleOf(r));
    AxisFromCorner(r.minY, r.maxY, c.y, ScaleOf(r));
  }

  /** Every point of `e`, mapped, lies in the canvas. */
  predicate CornersInCanvas(e: CleanEntity, r: Rect, scale: real)
  {
    forall j | 0 <= j < |RawPoints(e)| :: InCanvas(CornerRelative(r, scale, RawPoints(e)[j]))
  }

  lemma InFileElementInCanvas(e: CleanEntity, r: Rect, scale: real, id: nat)
    requires CornersInCanvas(e, r, scale)
    ensures var el := InFileElement(e, r, scale, id);
      el.Some? ==> forall j | 0 <= j < |el.value.coords| :: InCanvas(el.value.coords[j])
  {
    if IsLine(e) {
      assert RawPoints(e)[0] == e.start && RawPoints(e)[1] == e.end;
    } else if IsPolyline(e) {
      assert RawPoints(e) == e.vertices;
    }
  }

  lemma {:induction false} InFileElementsInCanvas(es: seq<CleanEntity>, r: Rect, scale: real, firstId: nat)
    requires forall k | 0 <= k < |es| :: CornersInCanvas(es[k], r, scale)
    ensures AllInCanvas(InFileElements(es, r, scale, firstId))
    decreases |es|
  {
    if es != [] {
      var n := |es| - 1;
      forall k | 0 <= k < n ensures CornersInCanvas(es[..n][k], r, scale) {
        assert es[..n][k] == es[k];
      }
      InFileElementsInCanvas(es[..n], r, scale, firstId);
      var prev := InFileElements(es[..n], r, scale, firstId);
      var el := InFileElement(es[n], r, scale, firstId + |prev|);
      InFileElementInCanvas(es[n], r, scale, firstId + |prev|);
      var els := InFileElements(es, r, scale, firstId);
      assert els == if el.Some? then prev + [el.value] else prev;
      forall i, j | 0 <= i < |els| && 0 <= j < |els[i].coords| ensures InCanvas(els[i].coords[j]) {
        if i < |prev| {
          assert els[i] == prev[i];
        }
      }
    }
  }

  /** Every coordinate of every element of a successful in-file import lies in the 10 x 10 canvas. */
  lemma InFileImportInCanvas(parsed: Option<seq<CleanEntity>>, firstId: nat)
    ensures var result := InFileImport(parsed, firstId);
      result.Success? ==> AllInCanvas(result.value.elements)
  {
    if parsed.Some? {
      var es := parsed.value;
      var r := Fallback(BoxOf(es));
      forall k | 0 <= k < |es| ensures CornersInCanvas(es[k], r, ScaleOf(r)) {
        forall j | 0 <= j < |RawPoints(es[k])| ensures InCanvas(CornerRelative(r, ScaleOf(r), RawPoints(es[k])[j])) {
          BoundsCoverEveryPoint(es, k, j);
          CornerInCanvas(r, RawPoints(es[k])[j]);
        }
      }
      InFileElementsInCanvas(es, r, ScaleOf(r), firstId);
    }
  }

  /** A NaN-free entity with a point has a valid first point. */
  lemma FirstPointValid(e: Entity)
    requires NaNFree(e)
    ensures |RawPoints(e)| > 0 ==> Valid(RawPoints(e)[0]).Some?
  {
  }

  /** Without bounds (no handled entity has a point) no element comes out, whatever rectangle is used. */
  lemma {:induction false} NoBoundsNoElements(es: seq<CleanEntity>, r: Rect, scale: real, firstId: nat)
    requires BoxOf(es).None?
    ensures InFileElements(es, r, scale, firstId) == []
    decreases |es|
  {
    if es != [] {
      var n := |es| - 1;
      FallbackExactlyWithoutPoints(es);
      assert NoUsablePoint(es[..n]) by {
        forall k, j | 0 <= k < n && 0 <= j < |RawPoints(es[..n][k])|
          ensures Valid(RawPoints(es[..n][k])[j]).None?
        {
          assert es[..n][k] == es[k];
        }
      }
      FallbackExactlyWithoutPoints(es[..n]);
      NoBoundsNoElements(es[..n], r, scale, firstId);
      var e := es[n];
      assert NaNFree(e);
      FirstPointValid(e);
      assert |RawPoints(e)| == 0;
      if IsPolyline(e) {
        assert RawPoints(e) == e.vertices;
      }
    }
  }

  /** The elements have consecutive ids from `firstId`, in entity order. */
  lemma {:induction false} InFileConsecutiveIds(es: seq<CleanEntity>, r: Rect, scale: real, firstId: nat)
    ensures forall i | 0 <= i < |InFileElements(es, r, scale, firstId)| :: InFileElements(es, r, scale, firstId)[i].id == firstId + i
    decreases |es|
  {
    if es != [] {
      var n := |es| - 1;
      InFileConsecutiveIds(es[..n], r, scale, firstId);
      var prev := InFileElements(es[..n], r, scale, firstId);
      var el := InFileElement(es[n], r, scale, firstId + |prev|);
      var els := InFileElements(es, r, scale, firstId);
      assert els == if el.Some? then prev + [el.value] else prev;
      forall i | 0 <= i < |els| ensures els[i].id == firstId + i {
        if i < |prev| {
          assert els[i] == prev[i] && prev[i].id == firstId + i;
        } else {
          assert el.Some? && els[i] == el.value;
        }
      }
    }
  }

  /** Any LINE among the entities makes the in-file import succeed. */
  lemma {:induction false} LineMakesImportSucceed(es: seq<CleanEntity>, k: nat, r: Rect, scale: real, firstId: nat)
    requires k < |es| && IsLine(es[k])
    ensures |InFileElements(es, r, scale, firstId)| > 0
    decreases |es|
  {
    var n := |es| - 1;
    if k < n {
      assert es[..n][k] == es[k];
      LineMakesImportSucceed(es[..n], k, r, scale, firstId);
    }
  }

  /** The in-file import fails without entities and when nothing survives; on success the level is "DXF Import". */
  lemma InFileOutcome(parsed: Option<seq<CleanEntity>>, firstId: nat)
    ensures var result := InFileImport(parsed, firstId);
      && (parsed.None? ==> result == Failure(InvalidOrEmpty))
      && (result.Success? ==> result.value.level == "DXF Import" && |result.value.elements| > 0 && result.value.scale > 0.0)
      && (parsed.Some? && (exists k | 0 <= k < |parsed.value| :: IsLine(parsed.value[k])) ==> result.Success?)
  {
    if parsed.Some? {
      var es := parsed.value;
      var r := Fallback(BoxOf(es));
      ScalePositive(r);
      if k :| 0 <= k < |es| && IsLine(es[k]) {
        LineMakesImportSucceed(es, k, r, ScaleOf(r), firstId);
      }
    }
  }

  /**
   * The two importers disagree on a zero-length LINE: the in-file importer
   * keeps it as an outer wall, `dxfProcessor.ts` drops it and fails.
   */
  lemma ZeroLengthLineKeptHere(fileName: string, p: RawPoint, firstId: nat)
    requires Valid(p).Some?
    ensures NaNFree(Entity("LINE", p, p, [], false))
    ensures var es: seq<CleanEntity> := [Entity("LINE", p, p, [], false)];
      && InFileImport(Some(es), firstId).Success?
      && |InFileImport(Some(es), firstId).value.elements| == 1
      && Import(fileName, Some(es), firstId) == Failure(NoValidElements)
  {
    assert RawPoints(Entity("LINE", p, p, [], false)) == [p, p];
    var es: seq<CleanEntity> := [Entity("LINE", p, p, [], false)];
    assert es[..0] == [];
    DegenerateLineFails(fileName, p, firstId);
  }
}
