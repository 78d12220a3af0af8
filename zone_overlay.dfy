/**
 * The drop overlay shown while a window is dragged: it receives the active
 * layout's zones, tracks the zone under the pointer, and stacks zones by
 * area like the editor.
 */
module ZoneOverlay {
  import opened Wrappers
  import opened Zones
  import opened ZOrder
  import ZoneDrag

  /**
   * `updateHoveredZone`: without overlay data or a mounted container
   * nothing is hovered; otherwise the first zone whose closed rectangle
   * contains the pointer (in percent of the container), with an empty id
   * read as none.
   */
  function HoveredAt(data: Option<seq<Zone>>, pos: Point, container: Option<ContainerRect>): (r: Option<string>)
    requires container.Some? ==> container.value.width > 0.0 && container.value.height > 0.0
    ensures data.None? || container.None? ==> r.None?
    ensures r.Some? ==> r.value != ""
    ensures r.Some? ==>
      exists i :: 0 <= i < |data.value| && data.value[i].id == r.value &&
        Contains(data.value[i], ZoneDrag.PointerPercent(pos.x, pos.y, container.value)) &&
        forall j :: 0 <= j < i ==> !Contains(data.value[j], ZoneDrag.PointerPercent(pos.x, pos.y, container.value))
    ensures data.Some? && container.Some? &&
      (exists i :: 0 <= i < |data.value| && data.value[i].id != "" &&
        Contains(data.value[i], ZoneDrag.PointerPercent(pos.x, pos.y, container.value)) &&
        forall j :: 0 <= j < i ==> !Contains(data.value[j], ZoneDrag.PointerPercent(pos.x, pos.y, container.value)))
      ==> r.Some?
  {
    if data.None? || container.None? then None
    else
      var p := ZoneDrag.PointerPercent(pos.x, pos.y, container.value);
      match FirstHit(data.value, p, None)
      case None => None
      case Some(k) => if data.value[k].id == "" then None else Some(data.value[k].id)
  }

  /** The z-index map of the overlay: empty without data, else the area ordering. */
  method OverlayZIndices(data: Option<seq<Zone>>) returns (m: map<string, int>)
    ensures data.None? ==> m == map[]
    ensures data.Some? ==> m == ZIndexMap(SortByArea(data.value), |data.value|)
  {
    if data.None? {
      return map[];
    }
    m := ZIndices(data.value);
  }

  /** The overlay component's state, set by its three event listeners. */
  class Overlay {
    var overlayData: Option<seq<Zone>>
    var hoveredZone: Option<string>
    var mousePosition: Option<Point>

    constructor ()
      ensures overlayData.None? && hoveredZone.None? && mousePosition.None?
    {
      overlayData := None;
      hoveredZone := None;
      mousePosition := None;
    }

    /**
     * `drag-overlay-show`: stores the layout; the effect on the overlay
     * data then recomputes the hovered zone when a pointer position is known.
     */
    method Show(zones: seq<Zone>, container: Option<ContainerRect>)
      requires container.Some? ==> container.value.width > 0.0 && container.value.height > 0.0
      modifies this
      ensures overlayData == Some(zones) && mousePosition == old(mousePosition)
      ensures mousePosition.Some? ==> hoveredZone == HoveredAt(Some(zones), mousePosition.value, container)
      ensures mousePosition.None? ==> hoveredZone == old(hoveredZone)
    {
      overlayData := Some(zones);
      if mousePosition.Some? {
        hoveredZone := HoveredAt(overlayData, mousePosition.value, container);
      }
    }

    /** `drag-overlay-hide`: forgets the layout, the hovered zone and the pointer. */
    method Hide()
      modifies this
      ensures overlayData.None? && hoveredZone.None? && mousePosition.None?
    {
      overlayData := None;
      hoveredZone := None;
      mousePosition := None;
    }

    /** `drag-overlay-mouse`: records the pointer and recomputes the hovered zone. */
    method Mouse(pos: Point, container: Option<ContainerRect>)
      requires container.Some? ==> container.value.width > 0.0 && container.value.height > 0.0
      modifies this
      ensures overlayData == old(overlayData) && mousePosition == Some(pos)
      ensures hoveredZone == HoveredAt(overlayData, pos, container)
    {
      mousePosition := Some(pos);
      hoveredZone := HoveredAt(overlayData, pos, container);
    }
  }
}
