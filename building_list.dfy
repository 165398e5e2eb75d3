/**
 * The building map's list of buildings (`MapComponent` in `libs/map/src/lib`):
 * saving an edited building replaces it in the list by id, and selecting a
 * building marker sets the selected building.
 */
module BuildingList {
  import opened Wrappers
  import opened FloorTypes

  /** The component's buildings and its selected building. */
  datatype BuildingView = BuildingView(buildings: seq<Building>, selected: Option<Building>)

  /** `prev.map(b => b.id === updated.id ? updated : b)`. */
  function ReplaceById(bs: seq<Building>, updated: Building): (r: seq<Building>)
    ensures |r| == |bs|
  {
    seq(|bs|, i requires 0 <= i < |bs| => if bs[i].id == updated.id then updated else bs[i])
  }

  /** `handleSaveBuilding`: replace by id, then clear the selection. */
  function SaveBuilding(v: BuildingView, updated: Building): (r: BuildingView)
    ensures r.selected.None?
  {
    BuildingView(ReplaceById(v.buildings, updated), None)
  }

  /** The select handler, given the buildings of the selected features in selection order. */
  function Select(v: BuildingView, selectedBuildings: seq<Building>): (r: BuildingView)
    ensures r.buildings == v.buildings
  {
    v.(selected := if |selectedBuildings| > 0 then Some(selectedBuildings[0]) else None)
  }

  /**
   * Every entry with the updated id becomes the updated building, every
   * other entry stays where it was, an id no entry has leaves the list as
   * it was, and the updated building ends up in the list exactly when its
   * id was there.
   */
  lemma ReplaceRule(bs: seq<Building>, updated: Building)
    ensures var r := ReplaceById(bs, updated);
      && (forall i | 0 <= i < |bs| && bs[i].id == updated.id :: r[i] == updated)
      && (forall i | 0 <= i < |bs| && bs[i].id != updated.id :: r[i] == bs[i])
      && ((forall i | 0 <= i < |bs| :: bs[i].id != updated.id) ==> r == bs)
      && (updated in r <==> exists i | 0 <= i < |bs| :: bs[i].id == updated.id)
  {
    var r := ReplaceById(bs, updated);
    if updated in r {
      var i :| 0 <= i < |r| && r[i] == updated;
      assert bs[i].id == updated.id;
    }
  }

  /** Saving the same building twice is saving it once. */
  lemma SaveIdempotent(v: BuildingView, updated: Building)
    ensures SaveBuilding(SaveBuilding(v, updated), updated) == SaveBuilding(v, updated)
  {
  }

  /** Ids are kept, so saving never changes which ids the list holds or their order. */
  lemma ReplaceKeepsIds(bs: seq<Building>, updated: Building)
    ensures forall i | 0 <= i < |bs| :: ReplaceById(bs, updated)[i].id == bs[i].id
  {
  }

  /**
   * The first selected feature's building is selected; an empty selection
   * selects nothing. The markers are built from the list, so when every
   * selected feature's building is in the list, so is the selected building.
   */
  lemma SelectRule(v: BuildingView, selectedBuildings: seq<Building>)
    ensures |selectedBuildings| > 0 ==> Select(v, selectedBuildings).selected == Some(selectedBuildings[0])
    ensures selectedBuildings == [] ==> Select(v, selectedBuildings).selected.None?
    ensures (forall x | x in selectedBuildings :: x in v.buildings) && Select(v, selectedBuildings).selected.Some?
      ==> Select(v, selectedBuildings).selected.value in v.buildings
  {
  }
}
