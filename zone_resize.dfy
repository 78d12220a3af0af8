/**
 * The eight-handle resize controller (`useZoneResize`). A resize starts
 * from a snapshot of the zone and the pointer; every move recomputes the
 * rectangle from that snapshot and the total pointer delta, floors it at 5%,
 * and then runs it through the snap engine and the overlap resolver.
 */
module ZoneResize {
  import opened Wrappers
  import opened Zones
  import opened ZoneSnap

  datatype ResizeHandle = N | S | E | W | NE | NW | SE | SW

  /** Handles that move the left edge (the right edge stays put). */
  predicate MovesLeft(h: ResizeHandle) { h == W || h == NW || h == SW }

  /** Handles that move the right edge (the left edge stays put). */
  predicate MovesRight(h: ResizeHandle) { h == E || h == NE || h == SE }

  /** Handles that move the top edge (the bottom edge stays put). */
  predicate MovesTop(h: ResizeHandle) { h == N || h == NW || h == NE }

  /** Handles that move the bottom edge (the top edge stays put). */
  predicate MovesBottom(h: ResizeHandle) { h == S || h == SE || h == SW }

  /** The snapshot taken when a resize starts: the pointer and a copy of the zone. */
  datatype ResizeStart = ResizeStart(x: real, y: real, zone: Zone)

  /**
   * One axis of a resize, as a reference for the switch over the eight
   * handles: the near edge (`lo`) moves when `movesNear`, the far edge when
   * `movesFar`; a near move keeps the far edge, a far move is floored at 5
   * and clipped at the canvas, and a span under 5 is raised to 5 (keeping
   * the far edge when the near edge was the one moving).
   */
  datatype Span = Span(lo: real, size: real)

  /** The span after the handle's move, before the 5% floor. */
  function AxisMove(lo: real, size: real, delta: real, movesNear: bool, movesFar: bool): Span {
    var lo1 := if movesNear then Max(0.0, lo + delta) else lo;
    var size1 :=
      if movesNear then size - (lo1 - lo)
      else if movesFar then (var s := Max(MIN_SIZE, size + delta); if lo1 + s > CANVAS then CANVAS - lo1 else s)
      else size;
    Span(lo1, size1)
  }

  function AxisResize(lo: real, size: real, delta: real, movesNear: bool, movesFar: bool): (r: Span)
    ensures r.size >= MIN_SIZE
    ensures movesNear ==> r.lo + r.size == lo + size && r.lo == Min(Max(0.0, lo + delta), lo + size - MIN_SIZE)
    ensures movesNear && lo + size >= MIN_SIZE ==> r.lo >= 0.0
    ensures !movesNear ==> r.lo == lo
    ensures movesFar && !movesNear && lo <= CANVAS - MIN_SIZE ==>
      r.lo + r.size == Min(CANVAS, Max(lo + MIN_SIZE, lo + size + delta))
    ensures !movesNear && !movesFar ==> r.size == Max(size, MIN_SIZE)
  {
    var m := AxisMove(lo, size, delta, movesNear, movesFar);
    if m.size < MIN_SIZE then
      Span(if movesNear then lo + size - MIN_SIZE else m.lo, MIN_SIZE)
    else
      m
  }

  /**
   * The rectangle a move produces before snapping: the snapshot's x/width
   * resized along the horizontal axis and its y/height along the vertical
   * one, by the handle's edges.
   */
  function Resized(original: Zone, handle: ResizeHandle, dx: real, dy: real): (r: Zone)
    ensures r.id == original.id && r.number == original.number
    ensures r.width >= MIN_SIZE && r.height >= MIN_SIZE
    ensures MovesLeft(handle) ==> Right(r) == Right(original)
    ensures MovesLeft(handle) && Right(original) >= MIN_SIZE ==> r.x >= 0.0
    ensures MovesTop(handle) ==> Bottom(r) == Bottom(original)
    ensures MovesTop(handle) && Bottom(original) >= MIN_SIZE ==> r.y >= 0.0
    ensures !MovesLeft(handle) ==> r.x == original.x
    ensures !MovesTop(handle) ==> r.y == original.y
    ensures MovesRight(handle) && original.x <= CANVAS - MIN_SIZE ==>
      Right(r) == Min(CANVAS, Max(original.x + MIN_SIZE, Right(original) + dx))
    ensures MovesBottom(handle) && original.y <= CANVAS - MIN_SIZE ==>
      Bottom(r) == Min(CANVAS, Max(original.y + MIN_SIZE, Bottom(original) + dy))
  {
    var h := AxisResize(original.x, original.width, dx, MovesLeft(handle), MovesRight(handle));
    var v := AxisResize(original.y, original.height, dy, MovesTop(handle), MovesBottom(handle));
    original.(x := h.lo, width := h.size, y := v.lo, height := v.size)
  }

  /** A handle that moves only one axis leaves the other axis of a zone at least 5 wide as it was. */
  lemma ResizedKeepsOtherAxis(original: Zone, handle: ResizeHandle, dx: real, dy: real)
    requires original.width >= MIN_SIZE && original.height >= MIN_SIZE
    ensures handle == N || handle == S ==>
      Resized(original, handle, dx, dy).x == original.x && Resized(original, handle, dx, dy).width == original.width
    ensures handle == E || handle == W ==>
      Resized(original, handle, dx, dy).y == original.y && Resized(original, handle, dx, dy).height == original.height
  {
  }

  /** Dragging the E handle 50 points right from x=60 with width 20 stops at the canvas edge: width 40. */
  lemma ResizeEastClampExample()
    ensures Resized(Zone("z", 60.0, 10.0, 20.0, 30.0, 1), E, 50.0, 0.0) == Zone("z", 60.0, 10.0, 40.0, 30.0, 1)
  {
  }

  /** Dragging the W handle past the right edge floors the width at 5 and keeps the right edge at 50. */
  lemma ResizeWestFloorExample()
    ensures Resized(Zone("z", 30.0, 10.0, 20.0, 30.0, 1), W, 40.0, 0.0) == Zone("z", 45.0, 10.0, 5.0, 30.0, 1)
  {
  }

  /**
   * The move handler's switch: `newX`, `newY`, `newWidth` and `newHeight`
   * start at the snapshot and are reassigned per handle.
   */
  method MoveEdges(original: Zone, handle: ResizeHandle, dx: real, dy: real)
    returns (newX: real, newY: real, newWidth: real, newHeight: real)
    ensures Span(newX, newWidth) == AxisMove(original.x, original.width, dx, MovesLeft(handle), MovesRight(handle))
    ensures Span(newY, newHeight) == AxisMove(original.y, original.height, dy, MovesTop(handle), MovesBottom(handle))
  {
    newX := original.x;
    newY := original.y;
    newWidth := original.width;
    newHeight := original.height;
    match handle {
      case N =>
        newY := Max(0.0, original.y + dy);
        newHeight := original.height - (newY - original.y);
      case S =>
        newHeight := Max(MIN_SIZE, original.height + dy);
        if newY + newHeight > CANVAS {
          newHeight := CANVAS - newY;
        }
      case E =>
        newWidth := Max(MIN_SIZE, original.width + dx);
        if newX + newWidth > CANVAS {
          newWidth := CANVAS - newX;
        }
      case W =>
        newX := Max(0.0, original.x + dx);
        newWidth := original.width - (newX - original.x);
      case NE =>
        newY := Max(0.0, original.y + dy);
        newHeight := original.height - (newY - original.y);
        newWidth := Max(MIN_SIZE, original.width + dx);
        if newX + newWidth > CANVAS {
          newWidth := CANVAS - newX;
        }
      case NW =>
        newX := Max(0.0, original.x + dx);
        newWidth := original.width - (newX - original.x);
        newY := Max(0.0, original.y + dy);
        newHeight := original.height - (newY - original.y);
      case SE =>
        newHeight := Max(MIN_SIZE, original.height + dy);
        if newY + newHeight > CANVAS {
          newHeight := CANVAS - newY;
        }
        newWidth := Max(MIN_SIZE, original.width + dx);
        if newX + newWidth > CANVAS {
          newWidth := CANVAS - newX;
        }
      case SW =>
        newX := Max(0.0, original.x + dx);
        newWidth := original.width - (newX - original.x);
        newHeight := Max(MIN_SIZE, original.height + dy);
        if newY + newHeight > CANVAS {
          newHeight := CANVAS - newY;
        }
    }
  }

  /** The move handler's rectangle: the switch, then the 5% floor on each side. */
  method ResizeRect(original: Zone, handle: ResizeHandle, dx: real, dy: real) returns (r: Zone)
    ensures r == Resized(original, handle, dx, dy)
  {
    var newX, newY, newWidth, newHeight := MoveEdges(original, handle, dx, dy);
    if newWidth < MIN_SIZE {
      newWidth := MIN_SIZE;
      if handle == W || handle == NW || handle == SW {
        newX := original.x + original.width - MIN_SIZE;
      }
    }
    if newHeight < MIN_SIZE {
      newHeight := MIN_SIZE;
      if handle == N || handle == NW || handle == NE {
        newY := original.y + original.height - MIN_SIZE;
      }
    }
    r := original.(x := newX, y := newY, width := newWidth, height := newHeight);
  }

  /** The zone being resized with the new geometry, snapped and then pushed off its siblings. */
  function ResizedZone(zone: Zone, geometry: Zone, zones: seq<Zone>, resizingId: string): (r: Zone)
    ensures r.id == zone.id && r.number == zone.number
    ensures r.width >= MIN_SIZE && r.height >= MIN_SIZE
    ensures r.width <= CANVAS && r.height <= CANVAS ==> InCanvas(r)
  {
    var snapped := SnapZoneEdges(zone.(x := geometry.x, y := geometry.y, width := geometry.width, height := geometry.height), zones, resizingId);
    if snapped.width <= CANVAS && snapped.height <= CANVAS then
      ResolveOverlapsInCanvas(snapped, zones, resizingId);
      ResolveOverlaps(snapped, zones, resizingId)
    else
      ResolveOverlaps(snapped, zones, resizingId)
  }

  /** The list after a move: only zones carrying the resizing id change. */
  function ResizedZones(zones: seq<Zone>, resizingId: string, geometry: Zone): (r: seq<Zone>)
    ensures |r| == |zones|
    ensures forall i :: 0 <= i < |zones| && zones[i].id != resizingId ==> r[i] == zones[i]
    ensures forall i :: 0 <= i < |zones| && zones[i].id == resizingId ==>
      r[i].id == resizingId && r[i].number == zones[i].number && r[i].width >= MIN_SIZE && r[i].height >= MIN_SIZE
  {
    seq(|zones|, i requires 0 <= i < |zones| =>
      if zones[i].id != resizingId then zones[i] else ResizedZone(zones[i], geometry, zones, resizingId))
  }

  /**
   * The `setZones` mapper of the move handler: each zone carrying the
   * resizing id takes the new geometry, is snapped against the previous
   * list and pushed off its siblings; the others are kept.
   */
  method ResizeAll(prevZones: seq<Zone>, id: string, geometry: Zone) returns (next: seq<Zone>)
    ensures next == ResizedZones(prevZones, id, geometry)
  {
    ghost var target := ResizedZones(prevZones, id, geometry);
    next := [];
    for i := 0 to |prevZones|
      invariant |next| == i
      invariant forall j :: 0 <= j < i ==> next[j] == target[j]
    {
      var zone := prevZones[i];
      if zone.id != id {
        next := next + [zone];
      } else {
        var updated := ResizeOne(zone, geometry, prevZones, id);
        assert updated == target[i];
        next := next + [updated];
      }
    }
    assert next == target;
  }

  /** The mapper's work on the zone being resized: take the geometry, snap, push off the siblings. */
  method ResizeOne(zone: Zone, geometry: Zone, prevZones: seq<Zone>, id: string) returns (updated: Zone)
    ensures updated == ResizedZone(zone, geometry, prevZones, id)
  {
    updated := zone.(x := geometry.x, y := geometry.y, width := geometry.width, height := geometry.height);
    updated := SnapZoneEdges(updated, prevZones, id);
    updated := PreventOverlaps(updated, prevZones, id);
  }

  /** The geometry for the pointer at (clientX, clientY), from the snapshot and the delta since the start. */
  function StartGeometry(s: ResizeStart, handle: ResizeHandle, clientX: real, clientY: real, rect: ContainerRect): Zone
    requires rect.width > 0.0 && rect.height > 0.0
  {
    Resized(s.zone, handle, PixelsToPercent(clientX - s.x, rect.width), PixelsToPercent(clientY - s.y, rect.height))
  }

  /**
   * The list after a move: unchanged while no resize is active or the
   * container is not mounted, otherwise the resizing zone takes the
   * geometry computed from the snapshot and the delta since the start.
   */
  function MovedZones(zones: seq<Zone>, resizingZone: Option<string>, resizeHandle: Option<ResizeHandle>,
                      resizeStart: Option<ResizeStart>, clientX: real, clientY: real, container: Option<ContainerRect>): (r: seq<Zone>)
    requires container.Some? ==> container.value.width > 0.0 && container.value.height > 0.0
    ensures !IsSet(resizingZone) || resizeHandle.None? || resizeStart.None? || container.None? ==> r == zones
    ensures |r| == |zones|
    ensures IsSet(resizingZone) ==> forall i :: 0 <= i < |zones| && zones[i].id != resizingZone.value ==> r[i] == zones[i]
  {
    if IsSet(resizingZone) && resizeHandle.Some? && resizeStart.Some? && container.Some? then
      ResizedZones(zones, resizingZone.value, StartGeometry(resizeStart.value, resizeHandle.value, clientX, clientY, container.value))
    else
      zones
  }

  /** The move handler's computation, outside the component state. */
  method MoveZones(zones: seq<Zone>, resizingZone: Option<string>, resizeHandle: Option<ResizeHandle>,
                   resizeStart: Option<ResizeStart>, clientX: real, clientY: real, container: Option<ContainerRect>) returns (r: seq<Zone>)
    requires container.Some? ==> container.value.width > 0.0 && container.value.height > 0.0
    ensures r == MovedZones(zones, resizingZone, resizeHandle, resizeStart, clientX, clientY, container)
  {
    if !IsSet(resizingZone) || resizeHandle.None? || resizeStart.None? || container.None? {
      return zones;
    }
    var s := resizeStart.value;
    var rect := container.value;
    var deltaXPercent := PixelsToPercent(clientX - s.x, rect.width);
    var deltaYPercent := PixelsToPercent(clientY - s.y, rect.height);
    var geometry := ResizeRect(s.zone, resizeHandle.value, deltaXPercent, deltaYPercent);
    assert geometry == StartGeometry(s, resizeHandle.value, clientX, clientY, rect);
    r := ResizeAll(zones, resizingZone.value, geometry);
  }

  class ZoneResizer {
    var zones: seq<Zone>
    var resizingZone: Option<string>
    var resizeHandle: Option<ResizeHandle>
    var resizeStart: Option<ResizeStart>

    constructor (initial: seq<Zone>)
      ensures zones == initial && resizingZone == None && resizeHandle == None && resizeStart == None
    {
      zones := initial;
      resizingZone := None;
      resizeHandle := None;
      resizeStart := None;
    }

    /**
     * `handleResizeStart`: when the zone exists and the container is
     * mounted, records the zone id, the handle, the pointer and a copy of
     * the zone; otherwise nothing changes.
     */
    method Start(zoneId: string, handle: ResizeHandle, clientX: real, clientY: real, hasContainer: bool)
      modifies this
      ensures zones == old(zones)
      ensures FindZone(zones, zoneId).Some? && hasContainer ==>
        resizingZone == Some(zoneId) && resizeHandle == Some(handle) &&
        resizeStart == Some(ResizeStart(clientX, clientY, FindZone(zones, zoneId).value))
      ensures FindZone(zones, zoneId).None? || !hasContainer ==>
        resizingZone == old(resizingZone) && resizeHandle == old(resizeHandle) && resizeStart == old(resizeStart)
    {
      var zone := FindZone(zones, zoneId);
      if zone.None? || !hasContainer {
        return;
      }
      resizingZone := Some(zoneId);
      resizeHandle := Some(handle);
      resizeStart := Some(ResizeStart(clientX, clientY, zone.value));
    }

    /**
     * `handleResizeMove`: the delta is taken from the pointer recorded at
     * the start, not from the previous move, so the geometry depends only
     * on the snapshot and the current pointer. The resize state itself is
     * left as it is.
     */
    method Move(clientX: real, clientY: real, container: Option<ContainerRect>)
      requires container.Some? ==> container.value.width > 0.0 && container.value.height > 0.0
      modifies this
      ensures resizingZone == old(resizingZone) && resizeHandle == old(resizeHandle) && resizeStart == old(resizeStart)
      ensures zones == MovedZones(old(zones), resizingZone, resizeHandle, resizeStart, clientX, clientY, container)
    {
      zones := MoveZones(zones, resizingZone, resizeHandle, resizeStart, clientX, clientY, container);
    }

    /** `handleResizeEnd`: clears the resizing zone, the handle and the snapshot. */
    method End()
      modifies this
      ensures zones == old(zones)
      ensures resizingZone == None && resizeHandle == None && resizeStart == None
    {
      resizingZone := None;
      resizeHandle := None;
      resizeStart := None;
    }
  }
}
