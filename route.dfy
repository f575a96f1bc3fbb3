/**
 The waypoints `showOptimizedRoute` hands to the routing control: one
 coordinate per selected id, in selection order, each looked up by id in the
 current catalog.
 */
module Route {
  import opened Wrappers
  import opened Catalog

  /** The guard of `showOptimizedRoute`: a route needs at least two stops. */
  const MinStops: nat := 2

  /** Every selected id names an attraction of the catalog. */
  predicate AllListed(sel: seq<int>, atts: seq<Attraction>)
  {
    forall k :: 0 <= k < |sel| ==> sel[k] in Ids(atts)
  }

  /** `selectedAttractions.map(id => latLng of attractions.find(a => a.id === id))`:
      the k-th waypoint is the position of the attraction found for the k-th
      selected id. */
  function Waypoints(sel: seq<int>, atts: seq<Attraction>): (w: seq<LatLng>)
    requires AllListed(sel, atts)
    ensures |w| == |sel|
    ensures forall k :: 0 <= k < |sel| ==> FindById(atts, sel[k]).Some? && w[k] == FindById(atts, sel[k]).value.position
  {
    if sel == [] then []
    else
      assert forall k :: 1 <= k < |sel| ==> sel[k] == sel[1..][k - 1];
      [FindById(atts, sel[0]).value.position] + Waypoints(sel[1..], atts)
  }

  /** In a catalog with unique ids, the k-th waypoint is the position of the
      attraction whose id was selected k-th. */
  lemma WaypointAt(sel: seq<int>, atts: seq<Attraction>, k: nat, j: nat)
    requires AllListed(sel, atts) && UniqueIds(atts)
    requires k < |sel| && j < |atts| && atts[j].id == sel[k]
    ensures Waypoints(sel, atts)[k] == atts[j].position
  {
    FindByIdUnique(atts, j);
  }

  /** A newly selected stop becomes the last waypoint; the earlier ones stay. */
  lemma WaypointsAppend(sel: seq<int>, id: int, atts: seq<Attraction>)
    requires AllListed(sel, atts) && id in Ids(atts)
    ensures AllListed(sel + [id], atts)
    ensures Waypoints(sel + [id], atts) == Waypoints(sel, atts) + [FindById(atts, id).value.position]
  {
    var t := sel + [id];
    assert forall k :: 0 <= k < |t| ==> t[k] == if k < |sel| then sel[k] else id;
    var a := Waypoints(t, atts);
    var b := Waypoints(sel, atts) + [FindById(atts, id).value.position];
    forall k | 0 <= k < |t| ensures a[k] == b[k] {
      if k < |sel| {
        assert t[k] == sel[k];
      }
    }
  }
}
