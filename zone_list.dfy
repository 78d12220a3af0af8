/**
 * The zone list editor of the settings screen: adding a default zone,
 * deleting a zone, and the aspect ratio of its preview canvas.
 */
module ZoneList {
  import opened Wrappers
  import opened Zones

  /** Where and how large a newly added zone starts. */
  const NEW_ZONE_POS: real := 10.0
  const NEW_ZONE_SIZE: real := 30.0

  /** Screen size used when the primary screen cannot be queried. */
  const FALLBACK_WIDTH: real := 1920.0
  const FALLBACK_HEIGHT: real := 1080.0

  /** The number a new zone gets: one above the largest, or 1 for an empty list. */
  function NextNumber(zones: seq<Zone>): (n: int)
    ensures forall z :: z in zones ==> z.number < n
    ensures zones == [] ==> n == 1
    ensures zones != [] ==> exists z :: z in zones && z.number == n - 1
  {
    if |zones| > 0 then MaxNumber(zones) + 1 else 1
  }

  /**
   * `handleAddZone`: a 30×30 zone at (10, 10) with a fresh id and the next
   * number is appended; the existing zones are kept as they are. Creating
   * its window may fail; the zone is added either way.
   */
  function AddZone(zones: seq<Zone>, newId: string): (r: seq<Zone>)
    ensures |r| == |zones| + 1 && r[..|zones|] == zones
    ensures r[|zones|] == Zone(newId, NEW_ZONE_POS, NEW_ZONE_POS, NEW_ZONE_SIZE, NEW_ZONE_SIZE, NextNumber(zones))
    ensures InCanvas(r[|zones|])
  {
    var r := zones + [Zone(newId, NEW_ZONE_POS, NEW_ZONE_POS, NEW_ZONE_SIZE, NEW_ZONE_SIZE, NextNumber(zones))];
    assert r[..|zones|] == zones;
    r
  }

  /**
   * `handleDeleteZone`: every zone with the id is removed, the rest keep
   * their order; the outcome of destroying the zone's window does not
   * matter.
   */
  function DeleteZone(zones: seq<Zone>, zoneId: string): (r: seq<Zone>)
    ensures forall z :: z in r <==> z in zones && z.id != zoneId
    ensures !HasId(r, zoneId)
  {
    RemoveId(zones, zoneId)
  }

  /** Adding a zone keeps the numbers distinct, and the ids unique when the new id is fresh. */
  lemma AddZoneKeepsDistinct(zones: seq<Zone>, newId: string)
    ensures DistinctNumbers(zones) ==> DistinctNumbers(AddZone(zones, newId))
    ensures UniqueIds(zones) && !HasId(zones, newId) ==> UniqueIds(AddZone(zones, newId))
  {
    var r := AddZone(zones, newId);
    forall i | 0 <= i < |zones| ensures r[i] == zones[i] && r[i] in zones {
      assert r[..|zones|][i] == r[i];
    }
  }

  /** Deleting a just-added zone by its fresh id gives back the list as it was. */
  lemma {:induction false} AddThenDelete(zones: seq<Zone>, newId: string)
    requires !HasId(zones, newId)
    ensures DeleteZone(AddZone(zones, newId), newId) == zones
  {
    var added := zones + [Zone(newId, NEW_ZONE_POS, NEW_ZONE_POS, NEW_ZONE_SIZE, NEW_ZONE_SIZE, NextNumber(zones))];
    assert AddZone(zones, newId) == added;
    RemoveIdAppendRemoved(zones, newId, added[|zones|]);
    RemoveIdAbsent(zones, newId);
  }

  /** Removing an id from a list ending in a zone with that id drops that zone. */
  lemma {:induction false} RemoveIdAppendRemoved(zones: seq<Zone>, id: string, last: Zone)
    requires last.id == id
    ensures RemoveId(zones + [last], id) == RemoveId(zones, id)
  {
    if zones == [] {
      assert [last][1..] == [];
    } else {
      assert (zones + [last])[1..] == zones[1..] + [last];
      RemoveIdAppendRemoved(zones[1..], id, last);
    }
  }

  /** The screen size the editor settles on: the primary screen's, or 1920×1080 when the query fails. */
  function ScreenDimensions(query: Result<(real, real), string>): (d: (real, real))
    ensures query.Ok? ==> d == query.value
    ensures query.Err? ==> d.1 > 0.0 && d.0 * 9.0 == d.1 * 16.0
  {
    match query
    case Ok(dims) => dims
    case Err(_) => (FALLBACK_WIDTH, FALLBACK_HEIGHT)
  }

  /** The preview's aspect ratio: the screen's width over height, or 16/9 before it is known. */
  function CanvasAspectRatio(dims: Option<(real, real)>): (r: real)
    requires dims.Some? ==> dims.value.1 != 0.0
    ensures dims.None? ==> r == 16.0 / 9.0
    ensures dims.Some? ==> r * dims.value.1 == dims.value.0
  {
    if dims.Some? then dims.value.0 / dims.value.1 else 16.0 / 9.0
  }

  /** The fallback screen gives the same ratio as having no screen at all. */
  lemma FallbackMatchesDefault(error: string)
    ensures CanvasAspectRatio(Some(ScreenDimensions(Err(error)))) == CanvasAspectRatio(None)
  {
  }
}
