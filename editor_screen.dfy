/**
 * The newer full-screen zone editor: it composes the drag hook and the
 * operations hook, dispatches clicks on a zone to a split, a grow or
 * nothing, and wires the merge dialog's answers to the operations hook
 * followed by a reset of the drag state.
 */
module EditorScreen {
  import opened Wrappers
  import opened Zones
  import opened ZoneOperations
  import opened ZoneDrag
  import opened ZoneResize
  import LegacyEditor

  /** What a click on a zone leads to. */
  datatype ClickAction =
    | Ignore           // a button was hit, or a drag or resize is active
    | ConsumeDragFlag  // the click that ends a drag: only the latch is cleared
    | Grow             // Ctrl/Meta-click on the hovered zone
    | Split            // plain click on the hovered zone
    | NoAction         // the zone is not the hovered one

  /**
   * `handleZoneClick`'s decision, from the click's target and modifier keys,
   * whether a drag or a resize is active, the drag latch, and whether the
   * clicked zone is the hovered one.
   */
  function ClickDispatch(onButton: bool, dragging: bool, resizing: bool, justDragged: bool,
                         ctrlOrMeta: bool, hovered: bool): (a: ClickAction)
    ensures a == Ignore <==> onButton || dragging || resizing
    ensures a == ConsumeDragFlag <==> !(onButton || dragging || resizing) && justDragged
    ensures a == Grow <==> !(onButton || dragging || resizing) && !justDragged && ctrlOrMeta && hovered
    ensures a == Split <==> !(onButton || dragging || resizing) && !justDragged && !ctrlOrMeta && hovered
    ensures a == NoAction <==> !(onButton || dragging || resizing) && !justDragged && !hovered
  {
    if onButton || dragging || resizing then Ignore
    else if justDragged then ConsumeDragFlag
    else if ctrlOrMeta then (if hovered then Grow else NoAction)
    else if hovered then Split
    else NoAction
  }

  /** A Ctrl/Meta click never splits, and the click right after a drag neither splits nor grows. */
  lemma ClickNeverSplitsAfterDragOrWithModifier(onButton: bool, dragging: bool, resizing: bool,
                                               justDragged: bool, ctrlOrMeta: bool, hovered: bool)
    ensures var a := ClickDispatch(onButton, dragging, resizing, justDragged, ctrlOrMeta, hovered);
      (ctrlOrMeta ==> a != Split) && (justDragged ==> a != Split && a != Grow)
  {
  }

  /**
   * The editor screen and the hooks it owns. The screen holds the one
   * `zones` state; every hook is handed that same list, so `Valid` keeps
   * each hook's copy equal to it and every handler that changes the list
   * hands the new list to all of them, as the shared `setZones` does.
   */
  class Screen {
    var zones: seq<Zone>
    const drag: DragController
    const ops: ZoneOperator
    const resize: ZoneResizer
    var hoveredZone: Option<string>
    var mousePosition: Option<Point>
    var splitMode: SplitMode

    /** Every hook sees the screen's list. */
    ghost predicate Valid()
      reads this, drag, ops, resize
    {
      drag.zones == zones && ops.zones == zones && resize.zones == zones
    }

    constructor (initial: seq<Zone>, snapEnabled: bool)
      ensures fresh(drag) && fresh(ops) && fresh(resize)
      ensures Valid() && zones == initial && drag.snapEnabled == snapEnabled
      ensures drag.draggedZone == None && !drag.hasDragged && resize.resizingZone == None
      ensures ops.pendingMerge == None && !ops.showMergeDialog
      ensures hoveredZone == None && mousePosition == None && splitMode == Horizontal
    {
      zones := initial;
      drag := new DragController(initial, snapEnabled);
      ops := new ZoneOperator(initial);
      resize := new ZoneResizer(initial);
      hoveredZone := None;
      mousePosition := None;
      splitMode := Horizontal;
    }

    /**
     * `editor-data` as `useZoneEditor` handles it: the sent zones, or one
     * full-canvas zone when none were sent, become the list every hook sees.
     */
    method LoadEditorData(dataZones: seq<Zone>, freshId: string)
      requires Valid()
      modifies this, drag, ops, resize
      ensures Valid() && zones == LegacyEditor.InitialZones(dataZones, freshId)
      ensures drag.draggedZone == old(drag.draggedZone) && resize.resizingZone == old(resize.resizingZone)
      ensures ops.pendingMerge == old(ops.pendingMerge) && splitMode == old(splitMode)
    {
      var initial := if |dataZones| == 0 then [Zone(freshId, 0.0, 0.0, CANVAS, CANVAS, 1)] else dataZones;
      zones, drag.zones, ops.zones, resize.zones := initial, initial, initial, initial;
    }

    /**
     * `useZoneEditor`'s key-down: Escape asks for the editor windows to be
     * closed with the current zones (returned here); Shift switches to
     * vertical splits.
     */
    method KeyDown(key: string) returns (closeWith: Option<seq<Zone>>)
      modifies this
      ensures zones == old(zones) && hoveredZone == old(hoveredZone)
      ensures key == "Escape" ==> closeWith == Some(zones) && splitMode == old(splitMode)
      ensures key == "Shift" ==> closeWith == None && splitMode == Vertical
      ensures key != "Escape" && key != "Shift" ==> closeWith == None && splitMode == old(splitMode)
    {
      closeWith := None;
      if key == "Escape" {
        closeWith := Some(zones);
      } else if key == "Shift" {
        splitMode := Vertical;
      }
    }

    /** `useZoneEditor`'s key-up: releasing Shift returns to horizontal splits. */
    method KeyUp(key: string)
      modifies this
      ensures zones == old(zones) && hoveredZone == old(hoveredZone)
      ensures key == "Shift" ==> splitMode == Horizontal
      ensures key != "Shift" ==> splitMode == old(splitMode)
    {
      if key == "Shift" {
        splitMode := Horizontal;
      }
    }

    /** A press on a zone's body goes to the drag hook; the list is not touched. */
    method MouseDown(zoneId: string, clientX: real, clientY: real, onButton: bool)
      requires Valid()
      modifies drag
      ensures Valid() && zones == old(zones)
      ensures onButton ==> drag.draggedZone == old(drag.draggedZone) && drag.hasDragged == old(drag.hasDragged)
      ensures !onButton ==>
        drag.draggedZone == Some(zoneId) && drag.dragStart == Some(Point(clientX, clientY)) && !drag.hasDragged &&
        drag.originalZonePosition == (match FindZone(zones, zoneId)
                                      case Some(z) => Some(Position(z.x, z.y))
                                      case None => old(drag.originalZonePosition))
    {
      drag.MouseDown(zoneId, clientX, clientY, onButton);
    }

    /**
     * A pointer move during a drag: the drag hook moves the dragged zone by
     * the delta since the last move, and the moved list becomes the
     * screen's list, which the operations and resize hooks then see.
     */
    method MouseMove(clientX: real, clientY: real, container: Option<ContainerRect>)
      requires Valid()
      requires container.Some? ==> container.value.width > 0.0 && container.value.height > 0.0
      modifies this, drag, ops, resize
      ensures Valid()
      ensures drag.draggedZone == old(drag.draggedZone) && drag.originalZonePosition == old(drag.originalZonePosition)
      ensures !IsSet(old(drag.draggedZone)) || old(drag.dragStart).None? || container.None? ==>
        zones == old(zones) && drag.mergeTarget == old(drag.mergeTarget)
      ensures IsSet(old(drag.draggedZone)) && old(drag.dragStart).Some? && container.Some? ==>
        var rect := container.value;
        var id := old(drag.draggedZone).value;
        zones == DraggedZones(old(zones), id, PixelsToPercent(clientX - old(drag.dragStart).value.x, rect.width),
                              PixelsToPercent(clientY - old(drag.dragStart).value.y, rect.height), drag.snapEnabled) &&
        drag.mergeTarget == MergeTargetOf(old(zones), id, PointerPercent(clientX, clientY, rect))
      ensures ops.pendingMerge == old(ops.pendingMerge) && ops.showMergeDialog == old(ops.showMergeDialog)
      ensures resize.resizingZone == old(resize.resizingZone)
      ensures hoveredZone == old(hoveredZone) && mousePosition == old(mousePosition) && splitMode == old(splitMode)
    {
      drag.MouseMove(clientX, clientY, container);
      zones, ops.zones, resize.zones := drag.zones, drag.zones, drag.zones;
    }

    /**
     * A release: with a dragged zone and a merge target the drag hook's
     * callback opens the merge dialog on the operations hook and the drag
     * state stays for it; otherwise the drag state is cleared.
     */
    method MouseUp()
      requires Valid()
      modifies drag, ops
      ensures Valid() && zones == old(zones)
      ensures IsSet(old(drag.draggedZone)) && IsSet(old(drag.mergeTarget)) ==>
        ops.pendingMerge == Some(PendingMerge(old(drag.draggedZone).value, old(drag.mergeTarget).value)) &&
        ops.showMergeDialog && drag.draggedZone == old(drag.draggedZone) &&
        drag.originalZonePosition == old(drag.originalZonePosition)
      ensures !(IsSet(old(drag.draggedZone)) && IsSet(old(drag.mergeTarget))) ==>
        ops.pendingMerge == old(ops.pendingMerge) && ops.showMergeDialog == old(ops.showMergeDialog) &&
        drag.draggedZone == None && drag.dragStart == None && drag.originalZonePosition == None && drag.mergeTarget == None
      ensures drag.hasDragged == old(drag.hasDragged)
    {
      var request := drag.MouseUp(true);
      if request.Some? {
        ops.InitiateMerge(request.value.draggedId, request.value.targetId);
      }
    }

    /** A press on a resize handle goes to the resize hook; the list is not touched. */
    method StartResize(zoneId: string, handle: ResizeHandle, clientX: real, clientY: real, hasContainer: bool)
      requires Valid()
      modifies resize
      ensures Valid() && zones == old(zones)
      ensures FindZone(zones, zoneId).Some? && hasContainer ==>
        resize.resizingZone == Some(zoneId) && resize.resizeHandle == Some(handle) &&
        resize.resizeStart == Some(ResizeStart(clientX, clientY, FindZone(zones, zoneId).value))
      ensures FindZone(zones, zoneId).None? || !hasContainer ==> resize.resizingZone == old(resize.resizingZone)
    {
      resize.Start(zoneId, handle, clientX, clientY, hasContainer);
    }

    /** A pointer move during a resize: the resized list becomes the screen's list. */
    method ResizeMove(clientX: real, clientY: real, container: Option<ContainerRect>)
      requires Valid()
      requires container.Some? ==> container.value.width > 0.0 && container.value.height > 0.0
      modifies this, drag, ops, resize
      ensures Valid()
      ensures zones == MovedZones(old(zones), resize.resizingZone, resize.resizeHandle, resize.resizeStart,
                                  clientX, clientY, container)
      ensures resize.resizingZone == old(resize.resizingZone) && resize.resizeStart == old(resize.resizeStart)
      ensures drag.draggedZone == old(drag.draggedZone) && drag.hasDragged == old(drag.hasDragged)
      ensures ops.pendingMerge == old(ops.pendingMerge) && ops.showMergeDialog == old(ops.showMergeDialog)
      ensures hoveredZone == old(hoveredZone) && mousePosition == old(mousePosition) && splitMode == old(splitMode)
    {
      resize.Move(clientX, clientY, container);
      zones, drag.zones, ops.zones := resize.zones, resize.zones, resize.zones;
    }

    /** The release that ends a resize clears the resize state and keeps the list. */
    method EndResize()
      requires Valid()
      modifies resize
      ensures Valid() && zones == old(zones)
      ensures resize.resizingZone == None && resize.resizeHandle == None && resize.resizeStart == None
    {
      resize.End();
    }

    /**
     * `handleZoneClick`: acts on the screen's list as `ClickDispatch`
     * decides; a grow or a split uses the hovered zone, a split cuts at the
     * pointer's x in horizontal mode and at its y in vertical mode.
     */
    method ZoneClick(zoneId: string, clientX: real, clientY: real, onButton: bool, ctrlOrMeta: bool,
                     container: Option<ContainerRect>, newId: string) returns (action: ClickAction)
      requires Valid()
      requires container.Some? ==> container.value.width > 0.0 && container.value.height > 0.0
      modifies this, drag, ops, resize
      ensures Valid()
      ensures action == ClickDispatch(onButton, IsSet(old(drag.draggedZone)), IsSet(old(resize.resizingZone)),
                                      old(drag.hasDragged), ctrlOrMeta, old(hoveredZone) == Some(zoneId))
      ensures action == ConsumeDragFlag ==>
        !drag.hasDragged && drag.initialMousePosition == None && drag.draggedZone == old(drag.draggedZone) &&
        zones == old(zones)
      ensures action == Grow ==> zones == GrowResult(old(zones), zoneId) && drag.hasDragged == old(drag.hasDragged)
      ensures action == Split ==>
        zones == SplitZones(old(zones), zoneId, if splitMode == Horizontal then clientX else clientY,
                            splitMode, container, newId) &&
        drag.hasDragged == old(drag.hasDragged)
      ensures action == Ignore || action == NoAction ==> zones == old(zones) && drag.hasDragged == old(drag.hasDragged)
      ensures ops.pendingMerge == old(ops.pendingMerge) && ops.showMergeDialog == old(ops.showMergeDialog)
      ensures resize.resizingZone == old(resize.resizingZone) && drag.draggedZone == old(drag.draggedZone)
      ensures hoveredZone == old(hoveredZone) && mousePosition == old(mousePosition) && splitMode == old(splitMode)
    {
      action := ClickDispatch(onButton, IsSet(drag.draggedZone), IsSet(resize.resizingZone), drag.hasDragged,
                              ctrlOrMeta, hoveredZone == Some(zoneId));
      if onButton || IsSet(drag.draggedZone) || IsSet(resize.resizingZone) {
        return;
      }
      var justDragged := drag.HasJustDragged();
      if justDragged {
        drag.ClearDragFlag();
        return;
      }
      if ctrlOrMeta {
        if hoveredZone == Some(zoneId) {
          ops.GrowZone(zoneId);
          zones, drag.zones, resize.zones := ops.zones, ops.zones, ops.zones;
        }
        return;
      }
      if hoveredZone == Some(zoneId) {
        var splitCoord := if splitMode == Horizontal then clientX else clientY;
        ops.SplitZone(zoneId, splitCoord, splitMode, container, newId);
        zones, drag.zones, resize.zones := ops.zones, ops.zones, ops.zones;
      }
    }

    /**
     * The merge dialog's confirm: the operations hook merges the screen's
     * list at the drag's recorded position, then the drag is reset.
     */
    method MergeDialogConfirm() returns (ok: bool)
      requires Valid()
      modifies this, drag, ops, resize
      ensures Valid()
      ensures old(ops.pendingMerge).None? ==> zones == old(zones)
      ensures old(ops.pendingMerge).Some? ==>
        var p := old(ops.pendingMerge).value;
        var pos := old(drag.originalZonePosition);
        var merged := MergeZones(old(zones), p.draggedId, p.targetId, pos);
        (merged.None? ==> !ok && zones == old(zones)) &&
        (merged.Some? ==>
           ok && !ops.showMergeDialog && ops.pendingMerge == None &&
           zones == (if pos.Some? then MoveTo(merged.value, p.draggedId, pos.value) else merged.value)) &&
        (merged.Some? && p.draggedId != p.targetId ==> zones == merged.value)
      ensures drag.draggedZone == None && drag.dragStart == None && drag.originalZonePosition == None
      ensures drag.mergeTarget == None && !drag.hasDragged && drag.initialMousePosition == None
      ensures resize.resizingZone == old(resize.resizingZone)
    {
      ok := ops.MergeConfirm(drag.originalZonePosition);
      zones, drag.zones, resize.zones := ops.zones, ops.zones, ops.zones;
      drag.ResetDrag();
    }

    /**
     * The merge dialog's cancel (also its closing): the dragged zone goes
     * back to its recorded position in the screen's list, the dialog
     * closes, then the drag is reset.
     */
    method MergeDialogCancel()
      requires Valid()
      modifies this, drag, ops, resize
      ensures Valid()
      ensures old(ops.pendingMerge).Some? && old(drag.originalZonePosition).Some? ==>
        zones == MoveTo(old(zones), old(ops.pendingMerge).value.draggedId, old(drag.originalZonePosition).value)
      ensures old(ops.pendingMerge).None? || old(drag.originalZonePosition).None? ==> zones == old(zones)
      ensures !ops.showMergeDialog && ops.pendingMerge == None
      ensures drag.draggedZone == None && drag.dragStart == None && drag.originalZonePosition == None
      ensures drag.mergeTarget == None && !drag.hasDragged && drag.initialMousePosition == None
      ensures resize.resizingZone == old(resize.resizingZone)
    {
      ops.MergeCancel(drag.originalZonePosition);
      zones, drag.zones, resize.zones := ops.zones, ops.zones, ops.zones;
      drag.ResetDrag();
    }

    /** `onOpenChange`: closing the dialog cancels the merge; opening it does nothing. */
    method MergeDialogOpenChange(open: bool)
      requires Valid()
      modifies this, drag, ops, resize
      ensures Valid()
      ensures !open ==> !ops.showMergeDialog && ops.pendingMerge == None && drag.draggedZone == None && !drag.hasDragged
      ensures !open && old(ops.pendingMerge).Some? && old(drag.originalZonePosition).Some? ==>
        zones == MoveTo(old(zones), old(ops.pendingMerge).value.draggedId, old(drag.originalZonePosition).value)
      ensures !open && (old(ops.pendingMerge).None? || old(drag.originalZonePosition).None?) ==> zones == old(zones)
      ensures open ==> zones == old(zones) && ops.pendingMerge == old(ops.pendingMerge) && drag.draggedZone == old(drag.draggedZone)
    {
      if !open {
        MergeDialogCancel();
      }
    }

    /** Pointer movement over a zone is tracked for the split bar unless a drag or resize is on. */
    method ZoneMouseMove(clientX: real, clientY: real)
      modifies this
      ensures zones == old(zones) && hoveredZone == old(hoveredZone) && splitMode == old(splitMode)
      ensures IsSet(drag.draggedZone) || IsSet(resize.resizingZone) ==> mousePosition == old(mousePosition)
      ensures !IsSet(drag.draggedZone) && !IsSet(resize.resizingZone) ==> mousePosition == Some(Point(clientX, clientY))
    {
      if IsSet(drag.draggedZone) || IsSet(resize.resizingZone) {
        return;
      }
      mousePosition := Some(Point(clientX, clientY));
    }

    /** Entering a zone makes it the hovered one. */
    method MouseEnter(zoneId: string)
      modifies this
      ensures zones == old(zones) && hoveredZone == Some(zoneId) && mousePosition == old(mousePosition) && splitMode == old(splitMode)
    {
      hoveredZone := Some(zoneId);
    }

    /** Leaving a zone clears the hover unless the hovered zone is the dragged one. */
    method MouseLeave()
      modifies this
      ensures zones == old(zones) && splitMode == old(splitMode)
      ensures drag.draggedZone == old(hoveredZone) ==> hoveredZone == old(hoveredZone) && mousePosition == old(mousePosition)
      ensures drag.draggedZone != old(hoveredZone) ==> hoveredZone == None && mousePosition == None
    {
      if drag.draggedZone != hoveredZone {
        hoveredZone := None;
        mousePosition := None;
      }
    }
  }
}
