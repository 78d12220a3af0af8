/**
 * The two drag hooks. Both move the dragged zone by the pointer delta since
 * the previous move, clamp it into the canvas, snap it (always in the older
 * hook, only when snapping is enabled in the newer one), push it off its
 * siblings, and track the sibling under the pointer as the merge target.
 * The newer hook also keeps a "has dragged" latch for the click handler.
 */
module ZoneDrag {
  import opened Wrappers
  import opened Zones
  import opened ZoneSnap
  import opened ZoneOperations

  /** Squared pointer travel beyond which a press counts as a drag (more than 5 px). */
  const DRAG_DISTANCE_SQUARED: real := 25.0

  /** The dragged zone moved by the delta and clamped so it stays inside the canvas. */
  function DraggedPosition(zone: Zone, dx: real, dy: real): (r: Zone)
    ensures r.id == zone.id && r.number == zone.number && r.width == zone.width && r.height == zone.height
    ensures r.x >= 0.0 && r.y >= 0.0
    ensures zone.width <= CANVAS ==> Right(r) <= CANVAS
    ensures zone.height <= CANVAS ==> Bottom(r) <= CANVAS
    ensures 0.0 <= zone.x + dx <= CANVAS - zone.width ==> r.x == zone.x + dx
    ensures 0.0 <= zone.y + dy <= CANVAS - zone.height ==> r.y == zone.y + dy
  {
    zone.(x := ClampTo(zone.x + dx, CANVAS - zone.width), y := ClampTo(zone.y + dy, CANVAS - zone.height))
  }

  /** One dragged zone after a move: clamped, optionally snapped, then pushed off its siblings. */
  function DraggedZone(zone: Zone, prevZones: seq<Zone>, draggedId: string, dx: real, dy: real, snap: bool): (r: Zone)
    ensures r.id == zone.id && r.number == zone.number
    ensures !snap ==> r.width == zone.width && r.height == zone.height
    ensures snap ==> r.width >= MIN_SIZE && r.height >= MIN_SIZE
    ensures !snap && 0.0 <= zone.width <= CANVAS && 0.0 <= zone.height <= CANVAS ==> InCanvas(r)
    ensures snap ==> (r.width <= CANVAS && r.height <= CANVAS ==> InCanvas(r))
  {
    var moved := DraggedPosition(zone, dx, dy);
    var snapped := if snap then SnapZoneEdges(moved, prevZones, draggedId) else moved;
    if snapped.width <= CANVAS && snapped.height <= CANVAS then
      ResolveOverlapsInCanvas(snapped, prevZones, draggedId);
      ResolveOverlaps(snapped, prevZones, draggedId)
    else
      ResolveOverlaps(snapped, prevZones, draggedId)
  }

  /** The list after a move: only zones carrying the dragged id change. */
  function DraggedZones(prevZones: seq<Zone>, draggedId: string, dx: real, dy: real, snap: bool): (r: seq<Zone>)
    ensures |r| == |prevZones|
    ensures forall i :: 0 <= i < |prevZones| && prevZones[i].id != draggedId ==> r[i] == prevZones[i]
    ensures forall i :: 0 <= i < |prevZones| && prevZones[i].id == draggedId ==>
      r[i].id == draggedId && r[i].number == prevZones[i].number
  {
    seq(|prevZones|, i requires 0 <= i < |prevZones| =>
      if prevZones[i].id != draggedId then prevZones[i] else DraggedZone(prevZones[i], prevZones, draggedId, dx, dy, snap))
  }

  /** Without snapping, a drag keeps every zone's size and keeps a canvas-bound list inside the canvas. */
  lemma DragWithoutSnapKeepsSizes(prevZones: seq<Zone>, draggedId: string, dx: real, dy: real)
    requires forall z :: z in prevZones ==> 0.0 <= z.width <= CANVAS && 0.0 <= z.height <= CANVAS && InCanvas(z)
    ensures var r := DraggedZones(prevZones, draggedId, dx, dy, false);
      forall i :: 0 <= i < |r| ==> r[i].width == prevZones[i].width && r[i].height == prevZones[i].height && InCanvas(r[i])
  {
    var r := DraggedZones(prevZones, draggedId, dx, dy, false);
    forall i | 0 <= i < |r|
      ensures r[i].width == prevZones[i].width && r[i].height == prevZones[i].height && InCanvas(r[i])
    {
      assert prevZones[i] in prevZones;
      if prevZones[i].id == draggedId {
        assert r[i] == DraggedZone(prevZones[i], prevZones, draggedId, dx, dy, false);
      }
    }
  }

  /** The `setZones` mapper of the move handler. */
  method DragAll(prevZones: seq<Zone>, draggedId: string, dx: real, dy: real, snap: bool) returns (next: seq<Zone>)
    ensures next == DraggedZones(prevZones, draggedId, dx, dy, snap)
  {
    ghost var target := DraggedZones(prevZones, draggedId, dx, dy, snap);
    next := [];
    for i := 0 to |prevZones|
      invariant next == target[..i]
    {
      var zone := prevZones[i];
      if zone.id != draggedId {
        next := next + [zone];
      } else {
        var newX := zone.x + dx;
        var newY := zone.y + dy;
        newX := Max(0.0, Min(CANVAS - zone.width, newX));
        newY := Max(0.0, Min(CANVAS - zone.height, newY));
        var updated := zone.(x := newX, y := newY);
        assert updated == DraggedPosition(zone, dx, dy);
        if snap {
          updated := SnapZoneEdges(updated, prevZones, draggedId);
        }
        var snapped := updated;
        updated := PreventOverlaps(updated, prevZones, draggedId);
        assert updated == ResolveOverlaps(snapped, prevZones, draggedId);
        assert updated == DraggedZone(zone, prevZones, draggedId, dx, dy, snap);
        next := next + [updated];
      }
    }
  }

  /**
   * The merge target: the first zone other than the dragged one whose
   * closed rectangle holds the pointer (`find(...)?.id || null`, so a zone
   * with an empty id counts as none).
   */
  function MergeTargetOf(zones: seq<Zone>, draggedId: string, p: Point): (r: Option<string>)
    ensures r.Some? ==> r.value != "" && r.value != draggedId
    ensures r.Some? ==> exists j :: 0 <= j < |zones| && zones[j].id == r.value && Contains(zones[j], p)
    ensures (forall j :: 0 <= j < |zones| ==> !Contains(zones[j], p) || zones[j].id == draggedId) ==> r.None?
  {
    match FirstHit(zones, p, Some(draggedId))
    case None => None
    case Some(k) => if zones[k].id == "" then None else Some(zones[k].id)
  }

  /** The pointer in percent of the container. */
  function PointerPercent(clientX: real, clientY: real, rect: ContainerRect): Point
    requires rect.width > 0.0 && rect.height > 0.0
  {
    Point(ClientToPercent(clientX, rect.left, rect.width), ClientToPercent(clientY, rect.top, rect.height))
  }

  /** The pointer has travelled more than 5 px from the press (`sqrt(dx² + dy²) > 5`, squared). */
  predicate MovedFar(initial: Point, clientX: real, clientY: real) {
    (clientX - initial.x) * (clientX - initial.x) + (clientY - initial.y) * (clientY - initial.y) > DRAG_DISTANCE_SQUARED
  }

  /**
   * One pointer move of a drag: the zones moved by the delta since the
   * last position, in percent of the container, and the merge target
   * under the pointer, looked up in the zones before the move.
   */
  method DragStep(zones: seq<Zone>, id: string, start: Point, clientX: real, clientY: real, rect: ContainerRect, snap: bool)
    returns (moved: seq<Zone>, target: Option<string>)
    requires rect.width > 0.0 && rect.height > 0.0
    ensures moved == DraggedZones(zones, id, PixelsToPercent(clientX - start.x, rect.width),
                                  PixelsToPercent(clientY - start.y, rect.height), snap)
    ensures target == MergeTargetOf(zones, id, PointerPercent(clientX, clientY, rect))
  {
    moved := DragAll(zones, id, PixelsToPercent(clientX - start.x, rect.width), PixelsToPercent(clientY - start.y, rect.height), snap);
    target := MergeTargetOf(zones, id, PointerPercent(clientX, clientY, rect));
  }

  /** The hook of `features/ZoneLayouts`: optional snapping and the "has dragged" latch. */
  class DragController {
    var zones: seq<Zone>
    var draggedZone: Option<string>
    var dragStart: Option<Point>
    var originalZonePosition: Option<Position>
    var mergeTarget: Option<string>
    var hasDragged: bool
    var initialMousePosition: Option<Point>
    const snapEnabled: bool

    constructor (initial: seq<Zone>, snap: bool)
      ensures zones == initial && snapEnabled == snap
      ensures draggedZone == None && dragStart == None && originalZonePosition == None && mergeTarget == None
      ensures !hasDragged && initialMousePosition == None
    {
      zones := initial;
      snapEnabled := snap;
      draggedZone := None;
      dragStart := None;
      originalZonePosition := None;
      mergeTarget := None;
      hasDragged := false;
      initialMousePosition := None;
    }

    /**
     * `handleMouseDown`: a press on a button starts nothing. Otherwise the
     * zone's position is recorded (kept as it was when the id is unknown),
     * the latch is reset and the drag starts at the pointer.
     */
    method MouseDown(zoneId: string, clientX: real, clientY: real, onButton: bool)
      modifies this
      ensures zones == old(zones) && mergeTarget == old(mergeTarget)
      ensures onButton ==>
        draggedZone == old(draggedZone) && dragStart == old(dragStart) && originalZonePosition == old(originalZonePosition) &&
        hasDragged == old(hasDragged) && initialMousePosition == old(initialMousePosition)
      ensures !onButton ==>
        draggedZone == Some(zoneId) && dragStart == Some(Point(clientX, clientY)) &&
        !hasDragged && initialMousePosition == Some(Point(clientX, clientY)) &&
        originalZonePosition == (match FindZone(zones, zoneId)
                                 case Some(z) => Some(Position(z.x, z.y))
                                 case None => old(originalZonePosition))
    {
      if onButton {
        return;
      }
      var zone := FindZone(zones, zoneId);
      if zone.Some? {
        originalZonePosition := Some(Position(zone.value.x, zone.value.y));
      }
      hasDragged := false;
      initialMousePosition := Some(Point(clientX, clientY));
      draggedZone := Some(zoneId);
      dragStart := Some(Point(clientX, clientY));
    }

    /**
     * `handleMouseMove`: sets the latch once the pointer is more than 5 px
     * from the press, moves the dragged zone by the delta since the last
     * move, replaces the drag start by the pointer (so deltas are
     * incremental), and records the sibling under the pointer in the list
     * as it was before this move.
     */
    method MouseMove(clientX: real, clientY: real, container: Option<ContainerRect>)
      requires container.Some? ==> container.value.width > 0.0 && container.value.height > 0.0
      modifies this
      ensures draggedZone == old(draggedZone) && originalZonePosition == old(originalZonePosition)
      ensures initialMousePosition == old(initialMousePosition)
      ensures !IsSet(old(draggedZone)) || old(dragStart).None? || container.None? ==>
        zones == old(zones) && dragStart == old(dragStart) && mergeTarget == old(mergeTarget) && hasDragged == old(hasDragged)
      ensures IsSet(old(draggedZone)) && old(dragStart).Some? && container.Some? ==>
        var rect := container.value;
        var id := old(draggedZone).value;
        hasDragged == (old(hasDragged) || (initialMousePosition.Some? && MovedFar(initialMousePosition.value, clientX, clientY))) &&
        zones == DraggedZones(old(zones), id, PixelsToPercent(clientX - old(dragStart).value.x, rect.width),
                              PixelsToPercent(clientY - old(dragStart).value.y, rect.height), snapEnabled) &&
        dragStart == Some(Point(clientX, clientY)) &&
        mergeTarget == MergeTargetOf(old(zones), id, PointerPercent(clientX, clientY, rect))
    {
      if !IsSet(draggedZone) || dragStart.None? || container.None? {
        return;
      }
      var latched := hasDragged || (initialMousePosition.Some? && MovedFar(initialMousePosition.value, clientX, clientY));
      var moved, target := DragStep(zones, draggedZone.value, dragStart.value, clientX, clientY, container.value, snapEnabled);
      hasDragged, zones, dragStart, mergeTarget := latched, moved, Some(Point(clientX, clientY)), target;
    }

    /**
     * `handleMouseUp`: with a dragged zone, a merge target and a merge
     * callback, the merge is requested (returned here) and the drag state
     * is kept for the dialog; otherwise the drag state is cleared. The
     * latch survives either way.
     */
    method MouseUp(hasMergeCallback: bool) returns (request: Option<PendingMerge>)
      modifies this
      ensures zones == old(zones) && hasDragged == old(hasDragged) && initialMousePosition == old(initialMousePosition)
      ensures IsSet(old(draggedZone)) && IsSet(old(mergeTarget)) && hasMergeCallback ==>
        request == Some(PendingMerge(old(draggedZone).value, old(mergeTarget).value)) &&
        draggedZone == old(draggedZone) && dragStart == old(dragStart) &&
        originalZonePosition == old(originalZonePosition) && mergeTarget == old(mergeTarget)
      ensures !(IsSet(old(draggedZone)) && IsSet(old(mergeTarget)) && hasMergeCallback) ==>
        request == None && draggedZone == None && dragStart == None && originalZonePosition == None && mergeTarget == None
    {
      if IsSet(draggedZone) && IsSet(mergeTarget) && hasMergeCallback {
        request := Some(PendingMerge(draggedZone.value, mergeTarget.value));
      } else {
        request := None;
        draggedZone := None;
        dragStart := None;
        originalZonePosition := None;
        mergeTarget := None;
      }
    }

    /** `resetDrag`: clears the drag state, the latch and the press position. */
    method ResetDrag()
      modifies this
      ensures zones == old(zones)
      ensures draggedZone == None && dragStart == None && originalZonePosition == None && mergeTarget == None
      ensures !hasDragged && initialMousePosition == None
    {
      draggedZone := None;
      dragStart := None;
      originalZonePosition := None;
      mergeTarget := None;
      hasDragged := false;
      initialMousePosition := None;
    }

    /** `hasJustDragged`: reads the latch. */
    method HasJustDragged() returns (dragged: bool)
      ensures dragged == hasDragged
    {
      dragged := hasDragged;
    }

    /** `clearDragFlag`: clears the latch and the press position, nothing else. */
    method ClearDragFlag()
      modifies this
      ensures !hasDragged && initialMousePosition == None
      ensures zones == old(zones) && draggedZone == old(draggedZone) && dragStart == old(dragStart)
      ensures originalZonePosition == old(originalZonePosition) && mergeTarget == old(mergeTarget)
    {
      hasDragged := false;
      initialMousePosition := None;
    }
  }

  /** The older hook of `components/ZoneLayouts`: always snaps, and has no latch. */
  class LegacyDragController {
    var zones: seq<Zone>
    var draggedZone: Option<string>
    var dragStart: Option<Point>
    var originalZonePosition: Option<Position>
    var mergeTarget: Option<string>

    constructor (initial: seq<Zone>)
      ensures zones == initial
      ensures draggedZone == None && dragStart == None && originalZonePosition == None && mergeTarget == None
    {
      zones := initial;
      draggedZone := None;
      dragStart := None;
      originalZonePosition := None;
      mergeTarget := None;
    }

    /** `handleMouseDown`: ignored on a button; otherwise records the position and the drag start. */
    method MouseDown(zoneId: string, clientX: real, clientY: real, onButton: bool)
      modifies this
      ensures zones == old(zones) && mergeTarget == old(mergeTarget)
      ensures onButton ==>
        draggedZone == old(draggedZone) && dragStart == old(dragStart) && originalZonePosition == old(originalZonePosition)
      ensures !onButton ==>
        draggedZone == Some(zoneId) && dragStart == Some(Point(clientX, clientY)) &&
        originalZonePosition == (match FindZone(zones, zoneId)
                                 case Some(z) => Some(Position(z.x, z.y))
                                 case None => old(originalZonePosition))
    {
      if onButton {
        return;
      }
      var zone := FindZone(zones, zoneId);
      if zone.Some? {
        originalZonePosition := Some(Position(zone.value.x, zone.value.y));
      }
      draggedZone := Some(zoneId);
      dragStart := Some(Point(clientX, clientY));
    }

    /** `handleMouseMove`: the same move as the newer hook with snapping always on. */
    method MouseMove(clientX: real, clientY: real, container: Option<ContainerRect>)
      requires container.Some? ==> container.value.width > 0.0 && container.value.height > 0.0
      modifies this
      ensures draggedZone == old(draggedZone) && originalZonePosition == old(originalZonePosition)
      ensures !IsSet(old(draggedZone)) || old(dragStart).None? || container.None? ==>
        zones == old(zones) && dragStart == old(dragStart) && mergeTarget == old(mergeTarget)
      ensures IsSet(old(draggedZone)) && old(dragStart).Some? && container.Some? ==>
        var rect := container.value;
        var id := old(draggedZone).value;
        zones == DraggedZones(old(zones), id, PixelsToPercent(clientX - old(dragStart).value.x, rect.width),
                              PixelsToPercent(clientY - old(dragStart).value.y, rect.height), true) &&
        dragStart == Some(Point(clientX, clientY)) &&
        mergeTarget == MergeTargetOf(old(zones), id, PointerPercent(clientX, clientY, rect))
    {
      if !IsSet(draggedZone) || dragStart.None? || container.None? {
        return;
      }
      var rect := container.value;
      var id := draggedZone.value;
      var deltaXPercent := PixelsToPercent(clientX - dragStart.value.x, rect.width);
      var deltaYPercent := PixelsToPercent(clientY - dragStart.value.y, rect.height);
      var before := zones;
      zones := DragAll(zones, id, deltaXPercent, deltaYPercent, true);
      dragStart := Some(Point(clientX, clientY));
      mergeTarget := MergeTargetOf(before, id, PointerPercent(clientX, clientY, rect));
    }

    /** `handleMouseUp`: requests the merge, or clears all four drag fields. */
    method MouseUp(hasMergeCallback: bool) returns (request: Option<PendingMerge>)
      modifies this
      ensures zones == old(zones)
      ensures IsSet(old(draggedZone)) && IsSet(old(mergeTarget)) && hasMergeCallback ==>
        request == Some(PendingMerge(old(draggedZone).value, old(mergeTarget).value)) &&
        draggedZone == old(draggedZone) && dragStart == old(dragStart) &&
        originalZonePosition == old(originalZonePosition) && mergeTarget == old(mergeTarget)
      ensures !(IsSet(old(draggedZone)) && IsSet(old(mergeTarget)) && hasMergeCallback) ==>
        request == None && draggedZone == None && dragStart == None && originalZonePosition == None && mergeTarget == None
    {
      if IsSet(draggedZone) && IsSet(mergeTarget) && hasMergeCallback {
        request := Some(PendingMerge(draggedZone.value, mergeTarget.value));
      } else {
        request := None;
        draggedZone := None;
        dragStart := None;
        originalZonePosition := None;
        mergeTarget := None;
      }
    }

    /** `resetDrag`: clears all four drag fields. */
    method ResetDrag()
      modifies this
      ensures zones == old(zones)
      ensures draggedZone == None && dragStart == None && originalZonePosition == None && mergeTarget == None
    {
      draggedZone := None;
      dragStart := None;
      originalZonePosition := None;
      mergeTarget := None;
    }
  }
}
