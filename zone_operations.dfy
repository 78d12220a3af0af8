/**
 * The structural operators of the zone editor: split one zone in two at a
 * pointer position, merge a dragged zone into a target (bounding box, then
 * renumbering in reading order), restore a dragged zone when a merge is
 * cancelled, and grow a zone up to the nearest blocking siblings.
 */
module ZoneOperations {
  import opened Wrappers
  import opened Zones
  import opened Sorting
  import opened ZoneSnap

  // ---------------------------------------------------------------- split

  /** The two zones a split produces: the left or top half, then the right or bottom half. */
  datatype Halves = Halves(first: Zone, second: Zone)

  /** The pointer coordinate along the split axis, in percent of the canvas. */
  function SplitPercent(splitPosition: real, mode: SplitMode, rect: ContainerRect): real
    requires rect.width > 0.0 && rect.height > 0.0
  {
    match mode
    case Horizontal => ClientToPercent(splitPosition, rect.left, rect.width)
    case Vertical => ClientToPercent(splitPosition, rect.top, rect.height)
  }

  /** Where the cut lies relative to the zone's near edge. */
  function CutOffset(zone: Zone, percent: real, mode: SplitMode): real {
    match mode
    case Horizontal => percent - zone.x
    case Vertical => percent - zone.y
  }

  /** The cut lies strictly inside the zone along the split axis. */
  predicate CutInside(zone: Zone, cut: real, mode: SplitMode) {
    match mode
    case Horizontal => 0.0 < cut < zone.width
    case Vertical => 0.0 < cut < zone.height
  }

  /**
   * The halves of a split at offset `cut`, or none when the cut is at or
   * beyond either edge. The first half keeps the id and number.
   */
  function SplitHalves(zone: Zone, cut: real, mode: SplitMode, newId: string, nextNumber: int): (r: Option<Halves>)
    ensures r.None? <==> !CutInside(zone, cut, mode)
    ensures r.Some? ==> r.value.first.id == zone.id && r.value.first.number == zone.number
    ensures r.Some? ==> r.value.second.id == newId && r.value.second.number == nextNumber
    ensures r.Some? && mode.Horizontal? ==>
      var h := r.value;
      h.first.x == zone.x && h.first.y == zone.y && h.first.height == zone.height &&
      h.second.y == zone.y && h.second.height == zone.height &&
      h.second.x == Right(h.first) && Right(h.second) == Right(zone) &&
      h.first.width > 0.0 && h.second.width > 0.0
    ensures r.Some? && mode.Vertical? ==>
      var h := r.value;
      h.first.x == zone.x && h.first.y == zone.y && h.first.width == zone.width &&
      h.second.x == zone.x && h.second.width == zone.width &&
      h.second.y == Bottom(h.first) && Bottom(h.second) == Bottom(zone) &&
      h.first.height > 0.0 && h.second.height > 0.0
  {
    if !CutInside(zone, cut, mode) then None
    else
      match mode
      case Horizontal =>
        Some(Halves(zone.(width := cut),
                    Zone(newId, zone.x + cut, zone.y, zone.width - cut, zone.height, nextNumber)))
      case Vertical =>
        Some(Halves(zone.(height := cut),
                    Zone(newId, zone.x, zone.y + cut, zone.width, zone.height - cut, nextNumber)))
  }

  /** The halves tile the original: their areas add up to its area and they do not overlap. */
  lemma SplitHalvesTile(zone: Zone, cut: real, mode: SplitMode, newId: string, nextNumber: int)
    requires CutInside(zone, cut, mode)
    ensures var h := SplitHalves(zone, cut, mode, newId, nextNumber).value;
      Area(h.first) + Area(h.second) == Area(zone) && !ZonesOverlap(h.first, h.second) && !ZonesOverlap(h.second, h.first)
  {
    var h := SplitHalves(zone, cut, mode, newId, nextNumber).value;
    match mode
    case Horizontal =>
      calc {
        Area(h.first) + Area(h.second);
        cut * zone.height + (zone.width - cut) * zone.height;
        (cut + (zone.width - cut)) * zone.height;
      }
    case Vertical =>
      calc {
        Area(h.first) + Area(h.second);
        zone.width * cut + zone.width * (zone.height - cut);
        zone.width * (cut + (zone.height - cut));
      }
  }

  /** The zone is found and the cut at `percent` lies strictly inside it. */
  predicate SplitAccepted(zones: seq<Zone>, zoneId: string, percent: real, mode: SplitMode) {
    FindZone(zones, zoneId).Some? &&
    CutInside(FindZone(zones, zoneId).value, CutOffset(FindZone(zones, zoneId).value, percent, mode), mode)
  }

  /** The halves of the zone carrying the id, cut at `percent`; none when the zone is missing or the cut is outside. */
  function SplitOf(zones: seq<Zone>, zoneId: string, percent: real, mode: SplitMode, newId: string): (r: Option<Halves>)
    ensures r.Some? <==> SplitAccepted(zones, zoneId, percent, mode)
  {
    match FindZone(zones, zoneId)
    case None => None
    case Some(zone) => SplitHalves(zone, CutOffset(zone, percent, mode), mode, newId, MaxNumber(zones) + 1)
  }

  /**
   * The split at a canvas coordinate: the zone is replaced by its two
   * halves, appended after the other zones; the second half gets a fresh
   * id and the number one above the current maximum. A missing zone or a
   * cut at or past an edge leaves the list unchanged.
   */
  function SplitAt(zones: seq<Zone>, zoneId: string, percent: real, mode: SplitMode, newId: string): (r: seq<Zone>)
    ensures !SplitAccepted(zones, zoneId, percent, mode) ==> r == zones
    ensures SplitAccepted(zones, zoneId, percent, mode) ==>
      var h := SplitOf(zones, zoneId, percent, mode, newId).value;
      r == RemoveId(zones, zoneId) + [h.first, h.second]
    ensures SplitAccepted(zones, zoneId, percent, mode) ==>
      |r| == |RemoveId(zones, zoneId)| + 2 && r[..|r| - 2] == RemoveId(zones, zoneId) &&
      r[|r| - 2].id == zoneId && r[|r| - 2].number == FindZone(zones, zoneId).value.number &&
      r[|r| - 1].id == newId && r[|r| - 1].number == MaxNumber(zones) + 1 &&
      (forall z :: z in zones ==> z.number < r[|r| - 1].number)
  {
    match SplitOf(zones, zoneId, percent, mode, newId)
    case None => zones
    case Some(h) =>
      AppendHalves(RemoveId(zones, zoneId), h);
      RemoveId(zones, zoneId) + [h.first, h.second]
  }

  /**
   * An accepted split appends two halves whose areas add up to the split
   * zone's and whose second half starts at the cut.
   */
  lemma SplitAtTiles(zones: seq<Zone>, zoneId: string, percent: real, mode: SplitMode, newId: string)
    requires SplitAccepted(zones, zoneId, percent, mode)
    ensures var r := SplitAt(zones, zoneId, percent, mode, newId);
      Area(r[|r| - 2]) + Area(r[|r| - 1]) == Area(FindZone(zones, zoneId).value) &&
      (mode.Horizontal? ==> r[|r| - 1].x == percent) && (mode.Vertical? ==> r[|r| - 1].y == percent)
  {
    var zone := FindZone(zones, zoneId).value;
    SplitHalvesTile(zone, CutOffset(zone, percent, mode), mode, newId, MaxNumber(zones) + 1);
    AppendHalves(RemoveId(zones, zoneId), SplitOf(zones, zoneId, percent, mode, newId).value);
  }

  /** Where the halves land when appended to the other zones. */
  lemma AppendHalves(rest: seq<Zone>, h: Halves)
    ensures var r := rest + [h.first, h.second];
      |r| == |rest| + 2 && r[..|r| - 2] == rest && r[|r| - 2] == h.first && r[|r| - 1] == h.second
  {
    var r := rest + [h.first, h.second];
    assert r[..|r| - 2] == rest;
  }

  /** `handleSplitZone`: converts the pointer to canvas percent and splits there; without a container nothing changes. */
  function SplitZones(zones: seq<Zone>, zoneId: string, splitPosition: real, mode: SplitMode,
                      container: Option<ContainerRect>, newId: string): (r: seq<Zone>)
    requires container.Some? ==> container.value.width > 0.0 && container.value.height > 0.0
    ensures container.None? ==> r == zones
    ensures container.Some? ==> r == SplitAt(zones, zoneId, SplitPercent(splitPosition, mode, container.value), mode, newId)
  {
    if container.None? then zones
    else SplitAt(zones, zoneId, SplitPercent(splitPosition, mode, container.value), mode, newId)
  }

  /** Appending two zones whose ids are new and differ keeps ids unique. */
  lemma {:induction false} AppendKeepsUnique(rest: seq<Zone>, a: Zone, b: Zone)
    requires UniqueIds(rest) && a.id != b.id
    requires forall i :: 0 <= i < |rest| ==> rest[i].id != a.id && rest[i].id != b.id
    ensures UniqueIds(rest + [a, b])
  {
    var r := rest + [a, b];
    forall i, j | 0 <= i < j < |r|
      ensures r[i].id != r[j].id
    {
      if j < |rest| {
        assert r[i] == rest[i] && r[j] == rest[j];
      }
    }
  }

  /** With unique ids an accepted split adds exactly one zone and keeps ids unique when the new id is fresh. */
  lemma SplitGrowsByOne(zones: seq<Zone>, zoneId: string, percent: real, mode: SplitMode, newId: string)
    requires UniqueIds(zones) && !HasId(zones, newId)
    requires SplitAccepted(zones, zoneId, percent, mode)
    ensures var r := SplitAt(zones, zoneId, percent, mode, newId);
      |r| == |zones| + 1 && UniqueIds(r)
  {
    var rest := RemoveId(zones, zoneId);
    RemoveIdCount(zones, zoneId);
    RemoveIdKeepsDistinct(zones, zoneId);
    var r := SplitAt(zones, zoneId, percent, mode, newId);
    var a, b := r[|r| - 2], r[|r| - 1];
    assert r == rest + [a, b];
    forall i | 0 <= i < |rest|
      ensures rest[i].id != a.id && rest[i].id != b.id
    {
      assert rest[i] in rest;
    }
    AppendKeepsUnique(rest, a, b);
  }

  /** Appending two zones whose numbers are new, differ and lie within 1..N keeps the numbering 1..N. */
  lemma {:induction false} AppendKeepsNumbering(rest: seq<Zone>, a: Zone, b: Zone)
    requires DistinctNumbers(rest)
    requires forall i :: 0 <= i < |rest| ==> 1 <= rest[i].number <= |rest| + 2 && rest[i].number != a.number && rest[i].number != b.number
    requires 1 <= a.number <= |rest| + 2 && 1 <= b.number <= |rest| + 2 && a.number != b.number
    ensures NumberedOneToN(rest + [a, b])
  {
    var r := rest + [a, b];
    forall i, j | 0 <= i < j < |r|
      ensures r[i].number != r[j].number
    {
      if j < |rest| {
        assert r[i] == rest[i] && r[j] == rest[j];
      }
    }
  }


  /** A split keeps the numbering 1..N contiguous: the new zone takes N + 1. */
  lemma SplitKeepsNumbering(zones: seq<Zone>, zoneId: string, percent: real, mode: SplitMode, newId: string)
    requires UniqueIds(zones) && NumberedOneToN(zones)
    requires SplitAccepted(zones, zoneId, percent, mode)
    ensures NumberedOneToN(SplitAt(zones, zoneId, percent, mode, newId))
  {
    var zone := FindZone(zones, zoneId).value;
    var n0 :| 0 <= n0 < |zones| && zones[n0] == zone;
    var top := MaxNumber(zones);
    assert top <= |zones| by {
      var m :| 0 <= m < |zones| && zones[m].number == top;
    }
    SplitNumbering(zones, zoneId, n0, SplitAt(zones, zoneId, percent, mode, newId));
  }

  /**
   * The counting step of the split: the other zones followed by a zone
   * with the removed zone's number and one above every number, at most
   * N + 1, are numbered 1..N + 1.
   */
  lemma SplitNumbering(zones: seq<Zone>, zoneId: string, n0: nat, r: seq<Zone>)
    requires UniqueIds(zones) && NumberedOneToN(zones)
    requires n0 < |zones| && zones[n0].id == zoneId
    requires |r| == |RemoveId(zones, zoneId)| + 2 && r[..|r| - 2] == RemoveId(zones, zoneId)
    requires r[|r| - 2].number == zones[n0].number
    requires (forall z :: z in zones ==> z.number < r[|r| - 1].number) && r[|r| - 1].number <= |zones| + 1
    ensures NumberedOneToN(r)
  {
    var rest := RemoveId(zones, zoneId);
    RemoveIdKeepsDistinct(zones, zoneId);
    var a, b := r[|r| - 2], r[|r| - 1];
    assert r == rest + [a, b];
    assert zones[n0] in zones;
    RestNumbersFree(zones, zoneId, n0, b.number);
    AppendKeepsNumbering(rest, a, b);
  }

  /**
   * With the zone at `n0` filtered out, the other zones' numbers lie in
   * 1..|rest| + 1 and avoid both the removed zone's number and `above`,
   * which is above every number.
   */
  lemma RestNumbersFree(zones: seq<Zone>, zoneId: string, n0: nat, above: int)
    requires UniqueIds(zones) && NumberedOneToN(zones)
    requires n0 < |zones| && zones[n0].id == zoneId
    requires forall z :: z in zones ==> z.number < above
    ensures |RemoveId(zones, zoneId)| == |zones| - 1
    ensures var rest := RemoveId(zones, zoneId);
      forall i :: 0 <= i < |rest| ==>
        1 <= rest[i].number <= |rest| + 1 && rest[i].number != zones[n0].number && rest[i].number != above
  {
    RemoveIdCount(zones, zoneId);
    var rest := RemoveId(zones, zoneId);
    var idx := RemoveIdIndices(zones, zoneId);
    forall i | 0 <= i < |rest|
      ensures 1 <= rest[i].number <= |rest| + 1 && rest[i].number != zones[n0].number && rest[i].number != above
    {
      assert rest[i] == zones[idx[i]] && zones[idx[i]] in zones && idx[i] != n0;
    }
  }


  /** A single full-canvas zone split horizontally at the middle of the container. */
  lemma SplitMidpointExample()
    ensures SplitZones([Zone("a", 0.0, 0.0, 100.0, 100.0, 1)], "a", 400.0, Horizontal, Some(ContainerRect(0.0, 0.0, 800.0, 600.0)), "b")
         == [Zone("a", 0.0, 0.0, 50.0, 100.0, 1), Zone("b", 50.0, 0.0, 50.0, 100.0, 2)]
  {
    var zones := [Zone("a", 0.0, 0.0, 100.0, 100.0, 1)];
    assert RemoveId(zones, "a") == [];
  }

  // ---------------------------------------------------------------- merge

  /** The bounding box of the two zones, keeping the target's id and number. */
  function MergedZone(dragged: Zone, target: Zone): (m: Zone)
    ensures m.id == target.id && m.number == target.number
    ensures m.x == Min(dragged.x, target.x) && m.y == Min(dragged.y, target.y)
    ensures Right(m) == Max(Right(dragged), Right(target)) && Bottom(m) == Max(Bottom(dragged), Bottom(target))
  {
    var x := Min(dragged.x, target.x);
    var y := Min(dragged.y, target.y);
    Zone(target.id, x, y, Max(Right(dragged), Right(target)) - x, Max(Bottom(dragged), Bottom(target)) - y, target.number)
  }

  /** The bounding box contains both zones, when both have non-negative size. */
  lemma MergedZoneContainsBoth(dragged: Zone, target: Zone)
    requires dragged.width >= 0.0 && dragged.height >= 0.0 && target.width >= 0.0 && target.height >= 0.0
    ensures var m := MergedZone(dragged, target);
      m.x <= dragged.x && Right(dragged) <= Right(m) && m.y <= dragged.y && Bottom(dragged) <= Bottom(m) &&
      m.x <= target.x && Right(target) <= Right(m) && m.y <= target.y && Bottom(target) <= Bottom(m) &&
      m.width >= 0.0 && m.height >= 0.0
  {
  }

  /** Reading order: ascending y, then ascending x (the merge's sort comparator). */
  predicate ReadingOrder(a: Zone, b: Zone) {
    a.y < b.y || (a.y == b.y && a.x <= b.x)
  }

  /** The list is sorted in reading order. */
  predicate InReadingOrder(zones: seq<Zone>) {
    forall i, j :: 0 <= i < j < |zones| ==> ReadingOrder(zones[i], zones[j])
  }

  lemma ReadingOrderTotal()
    ensures TotalPreorder(ReadingOrder)
  {
  }

  /** The merge's sort: a stable sort in reading order. */
  function SortReading(zones: seq<Zone>): (r: seq<Zone>)
    ensures multiset(r) == multiset(zones) && |r| == |zones|
    ensures InReadingOrder(r)
  {
    ReadingOrderTotal();
    SortBySorted(zones, ReadingOrder);
    SortBy(zones, ReadingOrder)
  }

  /** `sorted.map((z, idx) => ({...z, number: idx + 1}))`. */
  function Renumber(zones: seq<Zone>): (r: seq<Zone>)
    ensures |r| == |zones|
    ensures forall i :: 0 <= i < |zones| ==> r[i] == zones[i].(number := i + 1)
  {
    seq(|zones|, i requires 0 <= i < |zones| => zones[i].(number := i + 1))
  }

  /** The dragged zone at its recorded pre-drag position, or where it is now when none was recorded. */
  function AtOriginal(dragged: Zone, original: Option<Position>): Zone {
    match original
    case Some(p) => dragged.(x := p.x, y := p.y)
    case None => dragged
  }

  /**
   * `handleMergeConfirm`: the union of the dragged zone (at its pre-drag
   * position) and the target replaces both, and the list is sorted in
   * reading order and renumbered from 1. The source dereferences a missing
   * zone; that path is `None` here.
   */
  function MergeZones(zones: seq<Zone>, draggedId: string, targetId: string, original: Option<Position>): (r: Option<seq<Zone>>)
    ensures r.None? <==> !HasId(zones, draggedId) || !HasId(zones, targetId)
  {
    match (FindZone(zones, draggedId), FindZone(zones, targetId))
    case (Some(dragged), Some(target)) =>
      var merged := MergedZone(AtOriginal(dragged, original), target);
      var kept := RemoveId(RemoveId(zones, draggedId), targetId) + [merged];
      Some(Renumber(SortReading(kept)))
    case _ => None
  }

  /** Renumbering keeps the reading order, which ignores numbers. */
  lemma RenumberKeepsOrder(sorted: seq<Zone>)
    requires InReadingOrder(sorted)
    ensures InReadingOrder(Renumber(sorted))
  {
    var r := Renumber(sorted);
    forall i, j | 0 <= i < j < |r|
      ensures ReadingOrder(r[i], r[j])
    {
      assert ReadingOrder(sorted[i], sorted[j]);
    }
  }

  /** A zone of a list appears in its renumbered copy under its position's number. */
  lemma RenumberMember(sorted: seq<Zone>, z: Zone)
    requires z in sorted
    ensures exists k :: 0 <= k < |sorted| && Renumber(sorted)[k] == z.(number := k + 1)
  {
    var k :| 0 <= k < |sorted| && sorted[k] == z;
    assert Renumber(sorted)[k] == z.(number := k + 1);
  }

  /** Every zone of the input appears in the sorted, renumbered list under its new number. */
  lemma SortRenumberKeepsAll(kept: seq<Zone>)
    ensures var sorted := SortReading(kept);
      forall z :: z in kept ==> exists i :: 0 <= i < |sorted| && Renumber(sorted)[i] == z.(number := i + 1)
  {
    var sorted := SortReading(kept);
    forall z | z in kept
      ensures z in sorted
    {
      assert z in multiset(kept);
    }
    forall z | z in sorted
      ensures exists i :: 0 <= i < |sorted| && Renumber(sorted)[i] == z.(number := i + 1)
    {
      RenumberMember(sorted, z);
    }
  }

  /** Every zone of the sorted, renumbered list comes from the input. */
  lemma SortRenumberAddsNothing(kept: seq<Zone>)
    ensures var r := Renumber(SortReading(kept));
      forall i :: 0 <= i < |r| ==> exists z :: z in kept && r[i] == z.(number := i + 1)
  {
    var sorted := SortReading(kept);
    var r := Renumber(sorted);
    forall i | 0 <= i < |r|
      ensures exists z :: z in kept && r[i] == z.(number := i + 1)
    {
      assert sorted[i] in multiset(sorted);
      assert r[i] == sorted[i].(number := i + 1);
    }
  }

  /**
   * Sorting in reading order and renumbering keeps every zone exactly
   * once (under its new number) and yields a sorted list numbered 1..N.
   */
  lemma SortRenumberSpec(kept: seq<Zone>)
    ensures var r := Renumber(SortReading(kept));
      |r| == |kept| && InReadingOrder(r) && (forall i :: 0 <= i < |r| ==> r[i].number == i + 1) &&
      (forall z :: z in kept ==> exists i :: 0 <= i < |r| && r[i] == z.(number := i + 1)) &&
      (forall i :: 0 <= i < |r| ==> exists z :: z in kept && r[i] == z.(number := i + 1))
  {
    RenumberKeepsOrder(SortReading(kept));
    SortRenumberKeepsAll(kept);
    SortRenumberAddsNothing(kept);
  }

  /** The union a successful merge adds: the dragged zone, back at its original place, joined with the target. */
  function MergedOf(zones: seq<Zone>, draggedId: string, targetId: string, original: Option<Position>): Zone
    requires HasId(zones, draggedId) && HasId(zones, targetId)
  {
    MergedZone(AtOriginal(FindZone(zones, draggedId).value, original), FindZone(zones, targetId).value)
  }

  /** The list a successful merge sorts: the zones other than the two inputs, then the union. */
  function MergeKept(zones: seq<Zone>, draggedId: string, targetId: string, original: Option<Position>): seq<Zone>
    requires HasId(zones, draggedId) && HasId(zones, targetId)
  {
    RemoveId(RemoveId(zones, draggedId), targetId) + [MergedOf(zones, draggedId, targetId, original)]
  }

  lemma MergeZonesShape(zones: seq<Zone>, draggedId: string, targetId: string, original: Option<Position>)
    requires HasId(zones, draggedId) && HasId(zones, targetId)
    ensures MergeZones(zones, draggedId, targetId, original) == Some(Renumber(SortReading(MergeKept(zones, draggedId, targetId, original))))
  {
  }

  /** A merge leaves one zone fewer than the two removals plus the union, in reading order, numbered 1..N. */
  lemma MergeZonesOrdered(zones: seq<Zone>, draggedId: string, targetId: string, original: Option<Position>)
    requires HasId(zones, draggedId) && HasId(zones, targetId)
    ensures var r := MergeZones(zones, draggedId, targetId, original).value;
      |r| == |RemoveId(RemoveId(zones, draggedId), targetId)| + 1 &&
      (forall i :: 0 <= i < |r| ==> r[i].number == i + 1) &&
      InReadingOrder(r)
  {
    MergeZonesShape(zones, draggedId, targetId, original);
    SortRenumberSpec(MergeKept(zones, draggedId, targetId, original));
  }

  /** The union and every zone other than the two inputs appear in the merged list under their new numbers. */
  lemma MergeZonesKeeps(zones: seq<Zone>, draggedId: string, targetId: string, original: Option<Position>)
    requires HasId(zones, draggedId) && HasId(zones, targetId)
    ensures var r := MergeZones(zones, draggedId, targetId, original).value;
      (exists i :: 0 <= i < |r| && r[i] == MergedOf(zones, draggedId, targetId, original).(number := i + 1)) &&
      (forall z :: z in zones && z.id != draggedId && z.id != targetId ==> exists i :: 0 <= i < |r| && r[i] == z.(number := i + 1))
  {
    var kept := MergeKept(zones, draggedId, targetId, original);
    MergeZonesShape(zones, draggedId, targetId, original);
    SortRenumberKeepsAll(kept);
    assert kept[|kept| - 1] == MergedOf(zones, draggedId, targetId, original);
    assert forall z :: z in zones && z.id != draggedId && z.id != targetId ==> z in kept;
  }

  /** No zone of the merged list carries the dragged id, unless the dragged zone was dropped on itself. */
  lemma MergeZonesDropsDragged(zones: seq<Zone>, draggedId: string, targetId: string, original: Option<Position>)
    requires HasId(zones, draggedId) && HasId(zones, targetId)
    ensures var r := MergeZones(zones, draggedId, targetId, original).value;
      forall i :: 0 <= i < |r| ==> r[i].id != draggedId || draggedId == targetId
  {
    var kept := MergeKept(zones, draggedId, targetId, original);
    MergeZonesShape(zones, draggedId, targetId, original);
    SortRenumberAddsNothing(kept);
    assert forall z :: z in kept ==> z.id != draggedId || z.id == targetId;
  }

  /** With unique ids and two different zones, a merge removes exactly one zone. */
  lemma MergeRemovesOne(zones: seq<Zone>, draggedId: string, targetId: string, original: Option<Position>)
    requires UniqueIds(zones) && HasId(zones, draggedId) && HasId(zones, targetId) && draggedId != targetId
    ensures |MergeZones(zones, draggedId, targetId, original).value| == |zones| - 1
  {
    MergeZonesOrdered(zones, draggedId, targetId, original);
    RemoveIdCount(zones, draggedId);
    RemoveIdKeepsDistinct(zones, draggedId);
    var k :| 0 <= k < |zones| && zones[k].id == targetId;
    assert zones[k] in RemoveId(zones, draggedId);
    var j :| 0 <= j < |RemoveId(zones, draggedId)| && RemoveId(zones, draggedId)[j] == zones[k];
    RemoveIdCount(RemoveId(zones, draggedId), targetId);
  }

  /**
   * The restore that merge-confirm runs through merge-cancel afterwards
   * finds no zone with the dragged id, so it changes nothing.
   */
  lemma MergeThenRestoreIsNoOp(zones: seq<Zone>, draggedId: string, targetId: string, original: Option<Position>, pos: Position)
    requires HasId(zones, draggedId) && HasId(zones, targetId) && draggedId != targetId
    ensures var r := MergeZones(zones, draggedId, targetId, original).value;
      MoveTo(r, draggedId, pos) == r
  {
    MergeZonesDropsDragged(zones, draggedId, targetId, original);
    var r := MergeZones(zones, draggedId, targetId, original).value;
    MoveToAbsent(r, draggedId, pos);
  }

  /** Sorting a single zone leaves it alone. */
  lemma SortReadingSingleton(z: Zone)
    ensures SortReading([z]) == [z]
  {
    var sorted := SortReading([z]);
    assert sorted[0] in multiset([z]);
  }

  /**
   * Dragging A (moved to {12,7}) onto B at {30,0,30,30}: with A's pre-drag
   * position {0,0} restored first, the union is {0,0,60,30} under B's id
   * and number.
   */
  lemma MergeAdjacentExample()
    ensures MergedZone(AtOriginal(Zone("a", 12.0, 7.0, 30.0, 30.0, 1), Some(Position(0.0, 0.0))), Zone("b", 30.0, 0.0, 30.0, 30.0, 2))
         == Zone("b", 0.0, 0.0, 60.0, 30.0, 2)
  {
    var a := Zone("a", 0.0, 0.0, 30.0, 30.0, 1);
    var b := Zone("b", 30.0, 0.0, 30.0, 30.0, 2);
    assert AtOriginal(Zone("a", 12.0, 7.0, 30.0, 30.0, 1), Some(Position(0.0, 0.0))) == a;
    MergeSideBySide(a, b);
  }

  /** Two zones side by side on one row merge into the row segment from the left one's edge to the right one's. */
  lemma MergeSideBySide(a: Zone, b: Zone)
    requires a.y == b.y && a.height == b.height && a.x <= b.x && Right(a) <= Right(b)
    ensures MergedZone(a, b) == b.(x := a.x, width := Right(b) - a.x)
  {
    var m := MergedZone(a, b);
    assert m.x == a.x && m.y == b.y;
    assert Bottom(m) == Bottom(b);
  }

  /** Without the restore, the union would be the box around A's dropped position, {12,0,48,37}. */
  lemma MergeDroppedExample()
    ensures MergedZone(Zone("a", 12.0, 7.0, 30.0, 30.0, 1), Zone("b", 30.0, 0.0, 30.0, 30.0, 2))
         == Zone("b", 12.0, 0.0, 48.0, 37.0, 2)
  {
  }

  // ---------------------------------------------------------------- grow

  /** The four expansion limits: how far left, right, up and down the zone may grow. */
  datatype Limits = Limits(left: real, right: real, top: real, bottom: real)

  /** The sibling shares part of the zone's vertical span, so it can block growth to the left or right. */
  predicate VerticalOverlap(zone: Zone, other: Zone) {
    !(Bottom(zone) <= other.y || zone.y >= Bottom(other))
  }

  /** The sibling shares part of the zone's horizontal span, so it can block growth up or down. */
  predicate HorizontalOverlap(zone: Zone, other: Zone) {
    !(Right(zone) <= other.x || zone.x >= Right(other))
  }

  predicate BlocksLeft(zone: Zone, other: Zone) { VerticalOverlap(zone, other) && Right(other) <= zone.x }
  predicate BlocksRight(zone: Zone, other: Zone) { VerticalOverlap(zone, other) && other.x >= Right(zone) }
  predicate BlocksUp(zone: Zone, other: Zone) { HorizontalOverlap(zone, other) && Bottom(other) <= zone.y }
  predicate BlocksDown(zone: Zone, other: Zone) { HorizontalOverlap(zone, other) && other.y >= Bottom(zone) }

  /** One sibling tightens the limits it blocks. */
  function GrowStep(l: Limits, zone: Zone, other: Zone): Limits {
    Limits(if BlocksLeft(zone, other) then Max(l.left, Right(other)) else l.left,
           if BlocksRight(zone, other) then Min(l.right, other.x) else l.right,
           if BlocksUp(zone, other) then Max(l.top, Bottom(other)) else l.top,
           if BlocksDown(zone, other) then Min(l.bottom, other.y) else l.bottom)
  }

  /** The limits after scanning the siblings in order, starting from the canvas edges. */
  function GrowLimitsOf(zone: Zone, others: seq<Zone>): Limits
    decreases |others|
  {
    if others == [] then Limits(0.0, CANVAS, 0.0, CANVAS)
    else GrowStep(GrowLimitsOf(zone, others[..|others| - 1]), zone, others[|others| - 1])
  }

  /**
   * Each limit is the canvas edge or the facing edge of the nearest
   * sibling that blocks that direction; only siblings overlapping on the
   * perpendicular axis count.
   */
  lemma {:induction false} GrowLimitsNearest(zone: Zone, others: seq<Zone>)
    ensures var l := GrowLimitsOf(zone, others);
      l.left >= 0.0 && (forall o :: o in others && BlocksLeft(zone, o) ==> Right(o) <= l.left) &&
      (l.left == 0.0 || exists o :: o in others && BlocksLeft(zone, o) && Right(o) == l.left)
    ensures var l := GrowLimitsOf(zone, others);
      l.right <= CANVAS && (forall o :: o in others && BlocksRight(zone, o) ==> l.right <= o.x) &&
      (l.right == CANVAS || exists o :: o in others && BlocksRight(zone, o) && o.x == l.right)
    ensures var l := GrowLimitsOf(zone, others);
      l.top >= 0.0 && (forall o :: o in others && BlocksUp(zone, o) ==> Bottom(o) <= l.top) &&
      (l.top == 0.0 || exists o :: o in others && BlocksUp(zone, o) && Bottom(o) == l.top)
    ensures var l := GrowLimitsOf(zone, others);
      l.bottom <= CANVAS && (forall o :: o in others && BlocksDown(zone, o) ==> l.bottom <= o.y) &&
      (l.bottom == CANVAS || exists o :: o in others && BlocksDown(zone, o) && o.y == l.bottom)
  {
    if others != [] {
      var n := |others| - 1;
      GrowLimitsNearest(zone, others[..n]);
      assert others == others[..n] + [others[n]];
      assert forall o :: o in others <==> o in others[..n] || o == others[n];
    }
  }

  /** For a zone inside the canvas, the limits enclose the zone, so growing never shrinks it. */
  lemma GrowLimitsEnclose(zone: Zone, others: seq<Zone>)
    requires InCanvas(zone)
    ensures var l := GrowLimitsOf(zone, others);
      l.left <= zone.x && Right(zone) <= l.right && l.top <= zone.y && Bottom(zone) <= l.bottom
  {
    GrowLimitsNearest(zone, others);
  }

  /** The grown rectangle: the zone's id and number with the four limits as its edges. */
  function Expanded(zone: Zone, l: Limits): (e: Zone)
    ensures e.id == zone.id && e.number == zone.number
    ensures e.x == l.left && Right(e) == l.right && e.y == l.top && Bottom(e) == l.bottom
  {
    zone.(x := l.left, y := l.top, width := l.right - l.left, height := l.bottom - l.top)
  }

  /** Two zones have the same position and size. */
  predicate SameRect(a: Zone, b: Zone) {
    a.x == b.x && a.y == b.y && a.width == b.width && a.height == b.height
  }

  /** `handleGrowZone` as a function of the zone list: the zone is replaced by its expansion when that differs. */
  function GrowResult(zones: seq<Zone>, zoneId: string): (r: seq<Zone>)
    ensures |r| == |zones|
    ensures forall i :: 0 <= i < |zones| && zones[i].id != zoneId ==> r[i] == zones[i]
    ensures !HasId(zones, zoneId) ==> r == zones
    ensures HasId(zones, zoneId) ==>
      var zone := FindZone(zones, zoneId).value;
      var e := Expanded(zone, GrowLimitsOf(zone, RemoveId(zones, zoneId)));
      (SameRect(e, zone) ==> r == zones) &&
      (!SameRect(e, zone) ==> forall i :: 0 <= i < |zones| && zones[i].id == zoneId ==> r[i] == e)
  {
    match FindZone(zones, zoneId)
    case None => zones
    case Some(zone) =>
      var e := Expanded(zone, GrowLimitsOf(zone, RemoveId(zones, zoneId)));
      if !SameRect(e, zone)
      then ReplaceId(zones, zoneId, e)
      else zones
  }

  /** A grown zone inside the canvas keeps its id and number and contains its former rectangle. */
  lemma GrowContainsOriginal(zones: seq<Zone>, zoneId: string, i: nat)
    requires i < |zones| && zones[i].id == zoneId && UniqueIds(zones) && InCanvas(zones[i])
    ensures var g := GrowResult(zones, zoneId)[i];
      g.id == zoneId && g.number == zones[i].number &&
      g.x <= zones[i].x && Right(zones[i]) <= Right(g) && g.y <= zones[i].y && Bottom(zones[i]) <= Bottom(g)
  {
    var zone := FindZone(zones, zoneId).value;
    var k :| 0 <= k < |zones| && zones[k] == zone && forall j :: 0 <= j < k ==> zones[j].id != zoneId;
    assert k == i;
    GrowLimitsEnclose(zone, RemoveId(zones, zoneId));
  }

  /** A zone that touches the canvas or a blocking sibling on every side is left as it is. */
  lemma GrowSaturatedIsNoOp(zones: seq<Zone>, zoneId: string)
    requires HasId(zones, zoneId)
    requires var zone := FindZone(zones, zoneId).value;
      GrowLimitsOf(zone, RemoveId(zones, zoneId)) == Limits(zone.x, Right(zone), zone.y, Bottom(zone))
    ensures GrowResult(zones, zoneId) == zones
  {
    var zone := FindZone(zones, zoneId).value;
    var e := Expanded(zone, Limits(zone.x, Right(zone), zone.y, Bottom(zone)));
    assert e.width == zone.width && e.height == zone.height;
  }

  /** A zone surrounded by four siblings at a 10% margin grows to touch each of them. */
  lemma GrowSurroundedExample()
    ensures var others := [Zone("l", 0.0, 0.0, 10.0, 100.0, 2), Zone("r", 90.0, 0.0, 10.0, 100.0, 3),
                           Zone("t", 10.0, 0.0, 80.0, 10.0, 4), Zone("b", 10.0, 90.0, 80.0, 10.0, 5)];
      GrowLimitsOf(Zone("c", 30.0, 30.0, 40.0, 40.0, 1), others) == Limits(10.0, 90.0, 10.0, 90.0)
  {
    var others := [Zone("l", 0.0, 0.0, 10.0, 100.0, 2), Zone("r", 90.0, 0.0, 10.0, 100.0, 3),
                   Zone("t", 10.0, 0.0, 80.0, 10.0, 4), Zone("b", 10.0, 90.0, 80.0, 10.0, 5)];
    var c := Zone("c", 30.0, 30.0, 40.0, 40.0, 1);
    assert others[..3] == [others[0], others[1], others[2]];
    assert others[..3][..2] == [others[0], others[1]];
    assert others[..3][..2][..1] == [others[0]];
    assert others[..3][..2] == others[..2] && others[..2][..1] == others[..1] && others[..1][..0] == [];
    var l1 := GrowStep(Limits(0.0, CANVAS, 0.0, CANVAS), c, others[0]);
    assert l1 == Limits(10.0, CANVAS, 0.0, CANVAS);
    var l2 := GrowStep(l1, c, others[1]);
    assert l2 == Limits(10.0, 90.0, 0.0, CANVAS);
    var l3 := GrowStep(l2, c, others[2]);
    assert l3 == Limits(10.0, 90.0, 10.0, CANVAS);
    assert GrowStep(l3, c, others[3]) == Limits(10.0, 90.0, 10.0, 90.0);
    assert GrowLimitsOf(c, others[..1]) == l1;
    assert GrowLimitsOf(c, others[..2]) == l2;
    assert GrowLimitsOf(c, others[..3]) == l3;
  }

  /** `handleGrowZone`'s loop: scans every sibling and tightens the four limits. */
  method GrowLimits(zone: Zone, otherZones: seq<Zone>) returns (l: Limits)
    ensures l == GrowLimitsOf(zone, otherZones)
    ensures l.left >= 0.0 && l.right <= CANVAS && l.top >= 0.0 && l.bottom <= CANVAS
  {
    var zoneLeft, zoneRight, zoneTop, zoneBottom := zone.x, zone.x + zone.width, zone.y, zone.y + zone.height;
    var maxLeft, maxRight, maxTop, maxBottom := 0.0, CANVAS, 0.0, CANVAS;
    for i := 0 to |otherZones|
      invariant Limits(maxLeft, maxRight, maxTop, maxBottom) == GrowLimitsOf(zone, otherZones[..i])
    {
      assert otherZones[..i + 1][..i] == otherZones[..i];
      var other := otherZones[i];
      var otherLeft, otherRight, otherTop, otherBottom := other.x, other.x + other.width, other.y, other.y + other.height;
      var verticalOverlap := !(zoneBottom <= otherTop || zoneTop >= otherBottom);
      var horizontalOverlap := !(zoneRight <= otherLeft || zoneLeft >= otherRight);
      if verticalOverlap {
        if otherRight <= zoneLeft {
          maxLeft := Max(maxLeft, otherRight);
        }
        if otherLeft >= zoneRight {
          maxRight := Min(maxRight, otherLeft);
        }
      }
      if horizontalOverlap {
        if otherBottom <= zoneTop {
          maxTop := Max(maxTop, otherBottom);
        }
        if otherTop >= zoneBottom {
          maxBottom := Min(maxBottom, otherTop);
        }
      }
    }
    assert otherZones[..|otherZones|] == otherZones;
    l := Limits(maxLeft, maxRight, maxTop, maxBottom);
    GrowLimitsNearest(zone, otherZones);
  }

  // ---------------------------------------------------------------- merge gate

  /** The pair waiting for the merge dialog's answer. */
  datatype PendingMerge = PendingMerge(draggedId: string, targetId: string)

  /**
   * The operations hook: the editor's zone list it replaces, plus the
   * merge dialog flag and the pending pair it owns.
   */
  class ZoneOperator {
    var zones: seq<Zone>
    var showMergeDialog: bool
    var pendingMerge: Option<PendingMerge>

    constructor (initial: seq<Zone>)
      ensures zones == initial && !showMergeDialog && pendingMerge == None
    {
      zones := initial;
      showMergeDialog := false;
      pendingMerge := None;
    }

    /** `initiateMerge`: records the pair and opens the dialog. */
    method InitiateMerge(draggedId: string, targetId: string)
      modifies this
      ensures pendingMerge == Some(PendingMerge(draggedId, targetId)) && showMergeDialog
      ensures zones == old(zones)
    {
      pendingMerge := Some(PendingMerge(draggedId, targetId));
      showMergeDialog := true;
    }

    /**
     * `handleMergeCancel`: with a pending pair and a recorded position the
     * dragged zone goes back there; the dialog closes either way.
     */
    method MergeCancel(originalZonePosition: Option<Position>)
      modifies this
      ensures old(pendingMerge).Some? && originalZonePosition.Some? ==>
        zones == MoveTo(old(zones), old(pendingMerge).value.draggedId, originalZonePosition.value)
      ensures old(pendingMerge).None? || originalZonePosition.None? ==> zones == old(zones)
      ensures !showMergeDialog && pendingMerge == None
    {
      if pendingMerge.Some? && originalZonePosition.Some? {
        zones := MoveTo(zones, pendingMerge.value.draggedId, originalZonePosition.value);
      }
      showMergeDialog := false;
      pendingMerge := None;
    }

    /**
     * `handleMergeConfirm`: replaces the list by the merge result and then
     * runs the cancel path, whose restore no longer finds the dragged zone.
     * Nothing happens without a pending pair; a pending pair naming a
     * missing zone is the source's crash and returns `false` here, changing
     * nothing.
     */
    method MergeConfirm(originalZonePosition: Option<Position>) returns (ok: bool)
      modifies this
      ensures old(pendingMerge).None? ==> ok && zones == old(zones) && pendingMerge == old(pendingMerge) && showMergeDialog == old(showMergeDialog)
      ensures old(pendingMerge).Some? ==>
        var p := old(pendingMerge).value;
        var merged := MergeZones(old(zones), p.draggedId, p.targetId, originalZonePosition);
        (merged.None? ==> !ok && zones == old(zones) && pendingMerge == old(pendingMerge) && showMergeDialog == old(showMergeDialog)) &&
        (merged.Some? ==>
           ok && !showMergeDialog && pendingMerge == None &&
           zones == (if originalZonePosition.Some? then MoveTo(merged.value, p.draggedId, originalZonePosition.value) else merged.value)) &&
        (merged.Some? && p.draggedId != p.targetId ==> zones == merged.value)
    {
      if pendingMerge.None? {
        return true;
      }
      var p := pendingMerge.value;
      var merged := MergeZones(zones, p.draggedId, p.targetId, originalZonePosition);
      if merged.None? {
        return false;
      }
      if p.draggedId != p.targetId {
        MergeThenRestoreIsNoOp(zones, p.draggedId, p.targetId, originalZonePosition,
                               if originalZonePosition.Some? then originalZonePosition.value else Position(0.0, 0.0));
      }
      zones := merged.value;
      MergeCancel(originalZonePosition);
      ok := true;
    }

    /** `handleSplitZone` applied to the editor's list. */
    method SplitZone(zoneId: string, splitPosition: real, mode: SplitMode, container: Option<ContainerRect>, newId: string)
      requires container.Some? ==> container.value.width > 0.0 && container.value.height > 0.0
      modifies this
      ensures zones == SplitZones(old(zones), zoneId, splitPosition, mode, container, newId)
      ensures showMergeDialog == old(showMergeDialog) && pendingMerge == old(pendingMerge)
    {
      zones := SplitZones(zones, zoneId, splitPosition, mode, container, newId);
    }

    /** `handleGrowZone`: finds the zone, scans the siblings, and writes the expansion back only when it differs. */
    method GrowZone(zoneId: string)
      modifies this
      ensures zones == GrowResult(old(zones), zoneId)
      ensures showMergeDialog == old(showMergeDialog) && pendingMerge == old(pendingMerge)
    {
      var found := FindZone(zones, zoneId);
      if found.None? {
        return;
      }
      var zone := found.value;
      var otherZones := RemoveId(zones, zoneId);
      var l := GrowLimits(zone, otherZones);
      var expandedZone := Expanded(zone, l);
      ghost var target := GrowResult(zones, zoneId);
      if expandedZone.x != zone.x || expandedZone.y != zone.y || expandedZone.width != zone.width || expandedZone.height != zone.height {
        assert target == ReplaceId(zones, zoneId, expandedZone);
        zones := ReplaceId(zones, zoneId, expandedZone);
      } else {
        assert target == zones;
      }
    }
  }
}
