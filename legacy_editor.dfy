/**
 * The older full-screen zone editor, which keeps all of its state in one
 * component: the zones, a drag without snapping or overlap handling, the
 * merge dialog, the split mode toggled by Shift, and click-to-split on the
 * hovered zone. Its geometry is the shared one: the split of
 * `ZoneOperations.SplitZones`, the merge of `ZoneOperations.MergeZones`
 * and the clamp of `ZoneDrag.DraggedPosition`.
 */
module LegacyEditor {
  import opened Wrappers
  import opened Zones
  import opened ZoneOperations
  import ZoneDrag

  /**
   * The zones an `editor-data` event installs: the layout's zones, or a
   * single full-canvas zone numbered 1 (with a freshly generated id) when
   * the layout has none.
   */
  function InitialZones(dataZones: seq<Zone>, freshId: string): (r: seq<Zone>)
    ensures |r| >= 1
    ensures dataZones != [] ==> r == dataZones
    ensures dataZones == [] ==>
      |r| == 1 && r[0].id == freshId && r[0].x == 0.0 && r[0].y == 0.0 &&
      InCanvas(r[0]) && Area(r[0]) == CANVAS * CANVAS && NumberedOneToN(r)
  {
    if dataZones == [] then [Zone(freshId, 0.0, 0.0, CANVAS, CANVAS, 1)] else dataZones
  }

  /**
   * The drag update of this editor: the dragged zone moves by the delta
   * and is clamped into the canvas, with no snapping and no overlap
   * handling; every other zone is left as it is.
   */
  function ClampedZones(zones: seq<Zone>, draggedId: string, dx: real, dy: real): (r: seq<Zone>)
    ensures |r| == |zones|
    ensures forall i :: 0 <= i < |zones| && zones[i].id != draggedId ==> r[i] == zones[i]
    ensures forall i :: 0 <= i < |zones| && zones[i].id == draggedId ==>
      r[i].id == zones[i].id && r[i].number == zones[i].number &&
      r[i].width == zones[i].width && r[i].height == zones[i].height &&
      r[i].x >= 0.0 && r[i].y >= 0.0 &&
      (zones[i].width <= CANVAS ==> Right(r[i]) <= CANVAS) &&
      (zones[i].height <= CANVAS ==> Bottom(r[i]) <= CANVAS)
  {
    seq(|zones|, i requires 0 <= i < |zones| =>
      if zones[i].id == draggedId then ZoneDrag.DraggedPosition(zones[i], dx, dy) else zones[i])
  }

  /** A layout that lies inside the canvas still does after a drag step. */
  lemma ClampedZonesStayInCanvas(zones: seq<Zone>, draggedId: string, dx: real, dy: real)
    requires forall i :: 0 <= i < |zones| ==> InCanvas(zones[i])
    ensures var r := ClampedZones(zones, draggedId, dx, dy);
      forall i :: 0 <= i < |r| ==> InCanvas(r[i])
  {
    var r := ClampedZones(zones, draggedId, dx, dy);
    forall i | 0 <= i < |r| ensures InCanvas(r[i]) {
      if zones[i].id == draggedId {
        assert zones[i].width <= CANVAS && zones[i].height <= CANVAS;
      }
    }
  }

  /** A drag step followed by the cancel's restore puts the layout back as it was. */
  lemma ClampThenRestore(zones: seq<Zone>, draggedId: string, dx: real, dy: real, original: Position)
    requires forall i :: 0 <= i < |zones| && zones[i].id == draggedId ==> zones[i].x == original.x && zones[i].y == original.y
    ensures MoveTo(ClampedZones(zones, draggedId, dx, dy), draggedId, original) == zones
  {
    var moved := ClampedZones(zones, draggedId, dx, dy);
    var r := MoveTo(moved, draggedId, original);
    forall i | 0 <= i < |zones| ensures r[i] == zones[i] {
      if zones[i].id == draggedId {
        assert moved[i].id == draggedId;
      }
    }
  }

  /** What the component's state holds between events. */
  class Editor {
    var loaded: bool
    var zones: seq<Zone>
    var draggedZone: Option<string>
    var dragStart: Option<Point>
    var originalZonePosition: Option<Position>
    var hoveredZone: Option<string>
    var mergeTarget: Option<string>
    var mousePosition: Option<Point>
    var splitMode: SplitMode
    var showMergeDialog: bool
    var pendingMerge: Option<PendingMerge>

    /** The state before any `editor-data` event. */
    constructor ()
      ensures !loaded && zones == [] && splitMode == Horizontal
      ensures draggedZone == None && dragStart == None && originalZonePosition == None
      ensures hoveredZone == None && mergeTarget == None && mousePosition == None
      ensures !showMergeDialog && pendingMerge == None
    {
      loaded := false;
      zones := [];
      draggedZone := None;
      dragStart := None;
      originalZonePosition := None;
      hoveredZone := None;
      mergeTarget := None;
      mousePosition := None;
      splitMode := Horizontal;
      showMergeDialog := false;
      pendingMerge := None;
    }

    /** `editor-data`: installs the layout, or the default zone when it is empty. */
    method LoadEditorData(dataZones: seq<Zone>, freshId: string)
      modifies this
      ensures loaded && zones == InitialZones(dataZones, freshId)
      ensures draggedZone == old(draggedZone) && dragStart == old(dragStart) && splitMode == old(splitMode)
      ensures pendingMerge == old(pendingMerge) && showMergeDialog == old(showMergeDialog)
    {
      loaded := true;
      if |dataZones| == 0 {
        zones := [Zone(freshId, 0.0, 0.0, CANVAS, CANVAS, 1)];
      } else {
        zones := dataZones;
      }
    }

    /**
     * Key-down: Escape asks for the editor windows to be closed with the
     * current zones (returned here); Shift switches to vertical splits.
     */
    method KeyDown(key: string) returns (closeWith: Option<seq<Zone>>)
      modifies this
      ensures zones == old(zones)
      ensures key == "Escape" ==> closeWith == Some(zones) && splitMode == old(splitMode)
      ensures key == "Shift" ==> closeWith == None && splitMode == Vertical
      ensures key != "Escape" && key != "Shift" ==> closeWith == None && splitMode == old(splitMode)
    {
      closeWith := None;
      if key == "Escape" {
        closeWith := Some(zones);
      } else if key == "Shift" {
        splitMode := Vertical;
      }
    }

    /** Key-up: releasing Shift returns to horizontal splits. */
    method KeyUp(key: string)
      modifies this
      ensures zones == old(zones)
      ensures key == "Shift" ==> splitMode == Horizontal
      ensures key != "Shift" ==> splitMode == old(splitMode)
    {
      if key == "Shift" {
        splitMode := Horizontal;
      }
    }

    /**
     * `handleMouseDown`: a press on a button starts nothing; otherwise the
     * zone's position is recorded (kept as it was for an unknown id) and
     * the drag starts at the pointer.
     */
    method MouseDown(zoneId: string, clientX: real, clientY: real, onButton: bool)
      modifies this
      ensures zones == old(zones) && mergeTarget == old(mergeTarget) && hoveredZone == old(hoveredZone)
      ensures onButton ==>
        draggedZone == old(draggedZone) && dragStart == old(dragStart) && originalZonePosition == old(originalZonePosition)
      ensures !onButton ==>
        draggedZone == Some(zoneId) && dragStart == Some(Point(clientX, clientY)) &&
        originalZonePosition == (match FindZone(zones, zoneId)
                                 case Some(z) => Some(Position(z.x, z.y))
                                 case None => old(originalZonePosition))
    {
      if onButton {
        return;
      }
      var zone := FindZone(zones, zoneId);
      if zone.Some? {
        originalZonePosition := Some(Position(zone.value.x, zone.value.y));
      }
      draggedZone := Some(zoneId);
      dragStart := Some(Point(clientX, clientY));
    }

    /**
     * `handleMouseMove`: clamps the dragged zone to its new place, replaces
     * the drag start by the pointer, and records the sibling under the
     * pointer in the list as it was before this move.
     */
    method MouseMove(clientX: real, clientY: real, container: Option<ContainerRect>)
      requires container.Some? ==> container.value.width > 0.0 && container.value.height > 0.0
      modifies this
      ensures draggedZone == old(draggedZone) && originalZonePosition == old(originalZonePosition)
      ensures !IsSet(old(draggedZone)) || old(dragStart).None? || container.None? ==>
        zones == old(zones) && dragStart == old(dragStart) && mergeTarget == old(mergeTarget)
      ensures IsSet(old(draggedZone)) && old(dragStart).Some? && container.Some? ==>
        var rect := container.value;
        var id := old(draggedZone).value;
        zones == ClampedZones(old(zones), id, PixelsToPercent(clientX - old(dragStart).value.x, rect.width),
                              PixelsToPercent(clientY - old(dragStart).value.y, rect.height)) &&
        dragStart == Some(Point(clientX, clientY)) &&
        mergeTarget == ZoneDrag.MergeTargetOf(old(zones), id, ZoneDrag.PointerPercent(clientX, clientY, rect))
    {
      if !IsSet(draggedZone) || dragStart.None? || container.None? {
        return;
      }
      var rect := container.value;
      var id := draggedZone.value;
      var before := zones;
      zones := ClampedZones(zones, id, PixelsToPercent(clientX - dragStart.value.x, rect.width),
                            PixelsToPercent(clientY - dragStart.value.y, rect.height));
      dragStart := Some(Point(clientX, clientY));
      mergeTarget := ZoneDrag.MergeTargetOf(before, id, ZoneDrag.PointerPercent(clientX, clientY, rect));
    }

    /**
     * `handleMouseUp`: with a dragged zone and a merge target the pair is
     * recorded and the merge dialog opens, keeping the drag state;
     * otherwise the drag state is cleared.
     */
    method MouseUp()
      modifies this
      ensures zones == old(zones)
      ensures IsSet(old(draggedZone)) && IsSet(old(mergeTarget)) ==>
        pendingMerge == Some(PendingMerge(old(draggedZone).value, old(mergeTarget).value)) && showMergeDialog &&
        draggedZone == old(draggedZone) && dragStart == old(dragStart) &&
        originalZonePosition == old(originalZonePosition) && mergeTarget == old(mergeTarget)
      ensures !(IsSet(old(draggedZone)) && IsSet(old(mergeTarget))) ==>
        pendingMerge == old(pendingMerge) && showMergeDialog == old(showMergeDialog) &&
        draggedZone == None && dragStart == None && originalZonePosition == None && mergeTarget == None
    {
      if IsSet(draggedZone) && IsSet(mergeTarget) {
        pendingMerge := Some(PendingMerge(draggedZone.value, mergeTarget.value));
        showMergeDialog := true;
      } else {
        draggedZone := None;
        dragStart := None;
        originalZonePosition := None;
        mergeTarget := None;
      }
    }

    /**
     * `handleMergeCancel`: with a pending pair and a recorded position the
     * dragged zone goes back there; the dialog closes and all drag and
     * merge state is cleared.
     */
    method MergeCancel()
      modifies this
      ensures old(pendingMerge).Some? && old(originalZonePosition).Some? ==>
        zones == MoveTo(old(zones), old(pendingMerge).value.draggedId, old(originalZonePosition).value)
      ensures old(pendingMerge).None? || old(originalZonePosition).None? ==> zones == old(zones)
      ensures !showMergeDialog && pendingMerge == None
      ensures draggedZone == None && dragStart == None && originalZonePosition == None && mergeTarget == None
      ensures splitMode == old(splitMode) && hoveredZone == old(hoveredZone)
    {
      if pendingMerge.Some? && originalZonePosition.Some? {
        zones := MoveTo(zones, pendingMerge.value.draggedId, originalZonePosition.value);
      }
      showMergeDialog := false;
      pendingMerge := None;
      draggedZone := None;
      dragStart := None;
      originalZonePosition := None;
      mergeTarget := None;
    }

    /**
     * `handleMergeConfirm`: the merge result replaces the list and the
     * cancel path then runs, clearing all drag and merge state; its
     * restore finds no dragged zone unless it was its own target.
     * Nothing happens without a pending pair; a pair naming a missing zone
     * is the source's crash and returns `false`, changing nothing.
     */
    method MergeConfirm() returns (ok: bool)
      modifies this
      ensures old(pendingMerge).None? ==> ok && zones == old(zones) && pendingMerge == None && showMergeDialog == old(showMergeDialog)
      ensures old(pendingMerge).Some? ==>
        var p := old(pendingMerge).value;
        var merged := MergeZones(old(zones), p.draggedId, p.targetId, old(originalZonePosition));
        (merged.None? ==> !ok && zones == old(zones) && pendingMerge == old(pendingMerge) && showMergeDialog == old(showMergeDialog)) &&
        (merged.Some? ==>
           ok && !showMergeDialog && pendingMerge == None &&
           draggedZone == None && dragStart == None && originalZonePosition == None && mergeTarget == None &&
           zones == (if old(originalZonePosition).Some? then MoveTo(merged.value, p.draggedId, old(originalZonePosition).value)
                     else merged.value)) &&
        (merged.Some? && p.draggedId != p.targetId ==> zones == merged.value)
    {
      if pendingMerge.None? {
        return true;
      }
      var p := pendingMerge.value;
      var merged := MergeZones(zones, p.draggedId, p.targetId, originalZonePosition);
      if merged.None? {
        return false;
      }
      if p.draggedId != p.targetId {
        MergeThenRestoreIsNoOp(zones, p.draggedId, p.targetId, originalZonePosition,
                               if originalZonePosition.Some? then originalZonePosition.value else Position(0.0, 0.0));
      }
      zones := merged.value;
      MergeCancel();
      ok := true;
    }

    /** `handleSplitZone`: the shared split applied to the editor's list. */
    method SplitZone(zoneId: string, splitPosition: real, mode: SplitMode, container: Option<ContainerRect>, newId: string)
      requires container.Some? ==> container.value.width > 0.0 && container.value.height > 0.0
      modifies this
      ensures zones == SplitZones(old(zones), zoneId, splitPosition, mode, container, newId)
      ensures draggedZone == old(draggedZone) && hoveredZone == old(hoveredZone) && splitMode == old(splitMode)
      ensures pendingMerge == old(pendingMerge) && showMergeDialog == old(showMergeDialog)
    {
      zones := SplitZones(zones, zoneId, splitPosition, mode, container, newId);
    }

    /**
     * `handleZoneClick`: a click on a button or during a drag does nothing;
     * a click on the hovered zone splits it at the pointer, along x in
     * horizontal mode and along y in vertical mode.
     */
    method ZoneClick(zoneId: string, clientX: real, clientY: real, onButton: bool,
                     container: Option<ContainerRect>, newId: string)
      requires container.Some? ==> container.value.width > 0.0 && container.value.height > 0.0
      modifies this
      ensures onButton || IsSet(old(draggedZone)) || old(hoveredZone) != Some(zoneId) ==> zones == old(zones)
      ensures !onButton && !IsSet(old(draggedZone)) && old(hoveredZone) == Some(zoneId) ==>
        zones == SplitZones(old(zones), zoneId, if splitMode == Horizontal then clientX else clientY, splitMode, container, newId)
      ensures draggedZone == old(draggedZone) && hoveredZone == old(hoveredZone) && splitMode == old(splitMode)
    {
      if onButton || IsSet(draggedZone) {
        return;
      }
      if hoveredZone == Some(zoneId) {
        var splitCoord := if splitMode == Horizontal then clientX else clientY;
        SplitZone(zoneId, splitCoord, splitMode, container, newId);
      }
    }

    /** Pointer movement over a zone is tracked for the split bar unless a drag is on. */
    method ZoneMouseMove(clientX: real, clientY: real)
      modifies this
      ensures zones == old(zones) && hoveredZone == old(hoveredZone)
      ensures IsSet(old(draggedZone)) ==> mousePosition == old(mousePosition)
      ensures !IsSet(old(draggedZone)) ==> mousePosition == Some(Point(clientX, clientY))
    {
      if !IsSet(draggedZone) {
        mousePosition := Some(Point(clientX, clientY));
      }
    }

    /** Entering a zone makes it the hovered one. */
    method MouseEnter(zoneId: string)
      modifies this
      ensures hoveredZone == Some(zoneId) && zones == old(zones) && mousePosition == old(mousePosition)
    {
      hoveredZone := Some(zoneId);
    }

    /** Leaving a zone clears the hover, unless it is the zone being dragged. */
    method MouseLeave(zoneId: string)
      modifies this
      ensures zones == old(zones)
      ensures old(draggedZone) == Some(zoneId) ==> hoveredZone == old(hoveredZone) && mousePosition == old(mousePosition)
      ensures old(draggedZone) != Some(zoneId) ==> hoveredZone == None && mousePosition == None
    {
      if draggedZone != Some(zoneId) {
        hoveredZone := None;
        mousePosition := None;
      }
    }
  }
}
